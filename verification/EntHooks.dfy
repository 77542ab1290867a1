// withHooks and withInterceptors: folding a list of wrappers around one operation.
//
// Mutators are closures over mutable state in Go. Here they are functions from the state before
// a call to the state after it, the builder's own mutation being one part of that state.
module EntHooks {
  import opened Wrappers

  datatype State<+M, +S> = State(builder: M, rest: S)

  /** What is passed to a mutator: a mutation of the expected type, or something else. */
  datatype Argument<+M> = Expected(m: M) | OtherMutation

  datatype Value<+V> = Typed(v: V) | OtherValue

  datatype Error =
    | UninitializedHook
    | UninitializedInterceptor
    | UnexpectedMutationType
    | UnexpectedNodeType
    | Failed(code: nat)

  type Mutator<!M, !S, !V> = (State<M, S>, Argument<M>) -> (State<M, S>, Result<Value<V>, Error>)

  /** A hook turns a mutator into another one. */
  datatype Hook<!M, !S, !V> = NilHook | Hook(wrap: Mutator<M, S, V> -> Mutator<M, S, V>)

  type Exec<!M, !S, !V> = State<M, S> -> (State<M, S>, Result<V, Error>)

  function Tagged<V>(r: Result<V, Error>): Result<Value<V>, Error>
  {
    if r.Ok? then Ok(Typed(r.value)) else Err(r.error)
  }

  function Untagged<V>(r: Result<Value<V>, Error>): Result<V, Error>
  {
    match r
    case Err(e) => Err(e)
    case Ok(Typed(v)) => Ok(v)
    case Ok(OtherValue) => Err(UnexpectedNodeType)
  }

  /** What the operation answers comes out as it was, and a value of another type as an error. */
  lemma {:induction false} UntaggedIs<V>(r: Result<V, Error>, reply: Result<Value<V>, Error>)
    ensures Untagged(Tagged(r)) == r
    ensures reply == Ok(OtherValue) ==> Untagged(reply) == Err(UnexpectedNodeType)
  {
  }

  /** Copies the mutation it is given into the builder's own and executes the operation. */
  function Innermost<M, S, V>(exec: Exec<M, S, V>): Mutator<M, S, V>
  {
    (s: State<M, S>, arg: Argument<M>) =>
      match arg
      case OtherMutation => (s, Err(UnexpectedMutationType))
      case Expected(m) => var (s', r) := exec(s.(builder := m)); (s', Tagged(r))
  }

  ghost predicate NoneNil<M, S, V>(hooks: seq<Hook<M, S, V>>)
  {
    forall i :: 0 <= i < |hooks| ==> hooks[i].Hook?
  }

  /** f(g(h(inner))) for the list f, g, h */
  ghost function Compose<M, S, V>(hooks: seq<Hook<M, S, V>>, inner: Mutator<M, S, V>): Mutator<M, S, V>
    requires NoneNil(hooks)
  {
    if hooks == [] then inner else hooks[0].wrap(Compose(hooks[1..], inner))
  }

  /** With no hook, the operation alone; with a nil hook anywhere in the list, an error and not a
      trace of any mutator having run; otherwise the composition, first hook outermost. */
  method WithHooks<M, S, V>(s: State<M, S>, exec: Exec<M, S, V>, hooks: seq<Hook<M, S, V>>)
      returns (s': State<M, S>, r: Result<V, Error>)
    ensures hooks == [] ==> (s', r) == exec(s)
    ensures !NoneNil(hooks) ==> s' == s && r == Err(UninitializedHook)
    ensures hooks != [] && NoneNil(hooks) ==>
      var (s1, reply) := Compose(hooks, Innermost(exec))(s, Expected(s.builder));
      s' == s1 && r == Untagged(reply)
  {
    if |hooks| == 0 {
      var (s1, r1) := exec(s);
      return s1, r1;
    }
    var mut := Innermost(exec);
    var i := |hooks|;
    while i > 0
      invariant 0 <= i <= |hooks|
      invariant NoneNil(hooks[i..])
      invariant mut == Compose(hooks[i..], Innermost(exec))
    {
      i := i - 1;
      if hooks[i].NilHook? {
        return s, Err(UninitializedHook);
      }
      assert hooks[i..][1..] == hooks[i + 1..];
      mut := hooks[i].wrap(mut);
    }
    assert hooks[0..] == hooks;
    var (s1, reply) := mut(s, Expected(s.builder));
    s', r := s1, Untagged(reply);
  }

  /** Hooks registered earlier wrap those registered later. */
  lemma {:induction false} ComposeAppend<M, S, V>(outer: seq<Hook<M, S, V>>, later: seq<Hook<M, S, V>>,
                                                  inner: Mutator<M, S, V>)
    requires NoneNil(outer) && NoneNil(later)
    ensures NoneNil(outer + later) && Compose(outer + later, inner) == Compose(outer, Compose(later, inner))
  {
    if outer == [] {
      assert outer + later == later;
    } else {
      assert (outer + later)[1..] == outer[1..] + later;
      ComposeAppend(outer[1..], later, inner);
    }
  }

  lemma {:induction false} ComposeOne<M, S, V>(h: Hook<M, S, V>, inner: Mutator<M, S, V>)
    requires h.Hook?
    ensures Compose([h], inner) == h.wrap(inner) && Compose([], inner) == inner
  {
    assert [h][1..] == [];
  }

  /** A hook that rewrites the mutation and passes it on. */
  ghost predicate Rewrites<M(!new), S(!new), V(!new)>(h: Hook<M, S, V>, f: M -> M)
  {
    h.Hook? && forall next: Mutator<M, S, V>, s, m :: h.wrap(next)(s, Expected(m)) == next(s, Expected(f(m)))
  }

  function Fold<M>(fs: seq<M -> M>, m: M): M
  {
    if fs == [] then m else Fold(fs[1..], fs[0](m))
  }

  lemma {:induction false} RewritersFold<M(!new), S(!new), V(!new)>(
      hooks: seq<Hook<M, S, V>>, fs: seq<M -> M>, inner: Mutator<M, S, V>, s: State<M, S>, m: M)
    requires |hooks| == |fs| && forall i :: 0 <= i < |hooks| ==> Rewrites(hooks[i], fs[i])
    ensures NoneNil(hooks)
    ensures Compose(hooks, inner)(s, Expected(m)) == inner(s, Expected(Fold(fs, m)))
  {
    if hooks != [] {
      assert Rewrites(hooks[0], fs[0]);
      RewritersFold(hooks[1..], fs[1..], inner, s, fs[0](m));
    }
  }

  /** The operation finds in its builder the mutation as rewritten by every hook, first one first. */
  lemma {:induction false} ExecSeesRewritten<M(!new), S(!new), V(!new)>(
      hooks: seq<Hook<M, S, V>>, fs: seq<M -> M>, exec: Exec<M, S, V>, s: State<M, S>)
    requires |hooks| == |fs| && forall i :: 0 <= i < |hooks| ==> Rewrites(hooks[i], fs[i])
    ensures NoneNil(hooks)
    ensures var (s', reply) := Compose(hooks, Innermost(exec))(s, Expected(s.builder));
      (s', Untagged(reply)) == exec(s.(builder := Fold(fs, s.builder)))
  {
    RewritersFold(hooks, fs, Innermost(exec), s, s.builder);
  }

  // ---------------------------------------------------------------------------------------
  // Interceptors
  // ---------------------------------------------------------------------------------------

  type Querier<!S, !V> = S -> (S, Result<Value<V>, Error>)

  /** A plain interceptor wraps a querier; a traverser looks at the query before it runs. */
  datatype Interceptor<!S, !V> =
    | NilInterceptor
    | Wrapper(wrap: Querier<S, V> -> Querier<S, V>)
    | Traverser(traverse: S -> (S, Option<Error>), wrap: Querier<S, V> -> Querier<S, V>)

  ghost function Intercepted<S, V>(inters: seq<Interceptor<S, V>>, inner: Querier<S, V>): Querier<S, V>
    requires forall i :: 0 <= i < |inters| ==> !inters[i].NilInterceptor?
  {
    if inters == [] then inner else inters[0].wrap(Intercepted(inters[1..], inner))
  }

  /** The traversals of a list in order, up to the first that fails. */
  function Traversed<S, V>(inters: seq<Interceptor<S, V>>, s: S): (S, Option<Error>)
  {
    if inters == [] then (s, None)
    else if inters[0].NilInterceptor? then (s, Some(UninitializedInterceptor))
    else if inters[0].Wrapper? then Traversed(inters[1..], s)
    else
      var (s', e) := inters[0].traverse(s);
      if e.Some? then (s', e) else Traversed(inters[1..], s')
  }

  /** Traversals go interceptor by interceptor, and end with the first that fails. */
  lemma {:induction false} TraversedAppend<S, V>(a: seq<Interceptor<S, V>>, b: seq<Interceptor<S, V>>, s: S)
    ensures var (s', e) := Traversed(a, s); Traversed(a + b, s) == if e.Some? then (s', e) else Traversed(b, s')
  {
    if a == [] {
      assert a + b == b;
    } else {
      assert (a + b)[1..] == a[1..] + b;
      if a[0].Wrapper? {
        TraversedAppend(a[1..], b, s);
      } else if a[0].Traverser? {
        TraversedAppend(a[1..], b, a[0].traverse(s).0);
      }
    }
  }

  lemma {:induction false} TraversedOne<S, V>(inter: Interceptor<S, V>, s: S)
    ensures Traversed([inter], s) ==
            (match inter
             case NilInterceptor => (s, Some(UninitializedInterceptor))
             case Wrapper(_) => (s, None)
             case Traverser(traverse, _) => traverse(s))
  {
    assert [inter][1..] == [];
  }

  /** Interceptors registered earlier wrap those registered later. */
  lemma {:induction false} InterceptedAppend<S, V>(outer: seq<Interceptor<S, V>>, later: seq<Interceptor<S, V>>,
                                                   inner: Querier<S, V>)
    requires forall i :: 0 <= i < |outer| ==> !outer[i].NilInterceptor?
    requires forall i :: 0 <= i < |later| ==> !later[i].NilInterceptor?
    ensures forall i :: 0 <= i < |outer + later| ==> !(outer + later)[i].NilInterceptor?
    ensures Intercepted(outer + later, inner) == Intercepted(outer, Intercepted(later, inner))
  {
    if outer == [] {
      assert outer + later == later;
    } else {
      assert (outer + later)[1..] == outer[1..] + later;
      InterceptedAppend(outer[1..], later, inner);
    }
  }

  lemma {:induction false} InterceptedOne<S, V>(inter: Interceptor<S, V>, inner: Querier<S, V>)
    requires !inter.NilInterceptor?
    ensures Intercepted([inter], inner) == inter.wrap(inner)
  {
    assert [inter][1..] == [];
  }

  /** The interceptor part of prepareQuery. */
  method Prepare<S, V>(s: S, inters: seq<Interceptor<S, V>>) returns (s': S, err: Option<Error>)
    ensures (s', err) == Traversed(inters, s)
    ensures err.None? ==> forall i :: 0 <= i < |inters| ==> !inters[i].NilInterceptor?
  {
    s', err := s, None;
    for i := 0 to |inters|
      invariant Traversed(inters, s) == Traversed(inters[i..], s') && err.None?
      invariant forall k :: 0 <= k < i ==> !inters[k].NilInterceptor?
    {
      assert inters[i..][1..] == inters[i + 1..];
      match inters[i] {
        case NilInterceptor =>
          err := Some(UninitializedInterceptor);
          return;
        case Traverser(traverse, _) =>
          var (s1, e) := traverse(s');
          s', err := s1, e;
          if err.Some? {
            return;
          }
        case Wrapper(_) =>
      }
    }
  }

  /** All: withInterceptors never meets a nil interceptor, since the query is prepared first,
      and the result is the composition applied to the traversed query. */
  method All<S, V>(s: S, inters: seq<Interceptor<S, V>>, sqlAll: Querier<S, V>) returns (s': S, r: Result<V, Error>)
    ensures var (s1, err) := Traversed(inters, s);
      if err.Some? then s' == s1 && r == Err(err.value)
      else
        && (forall i :: 0 <= i < |inters| ==> !inters[i].NilInterceptor?)
        && var (s2, reply) := Intercepted(inters, sqlAll)(s1); s' == s2 && r == Untagged(reply)
  {
    var err;
    s', err := Prepare(s, inters);
    if err.Some? {
      return s', Err(err.value);
    }
    var qr := sqlAll;
    var i := |inters|;
    while i > 0
      invariant 0 <= i <= |inters|
      invariant qr == Intercepted(inters[i..], sqlAll)
    {
      i := i - 1;
      assert inters[i..][1..] == inters[i + 1..];
      qr := inters[i].wrap(qr);
    }
    assert inters[0..] == inters;
    var (s2, reply) := qr(s');
    s', r := s2, Untagged(reply);
  }
}
