// What the chains of Save guarantee: for every hook whatsoever, and for hooks that forward
// exactly once and pass errors on.
module ChainTheorems {
  import opened Wrappers
  import opened ShareFiles
  import opened MutatorChain

  // ---------------------------------------------------------------------------------------
  // Readings of a trace
  // ---------------------------------------------------------------------------------------

  // Each reading is defined on the first n events.

  function MarksIn(t: seq<Event>, n: nat): seq<nat>
    requires n <= |t|
  {
    if n == 0 then [] else MarksIn(t, n - 1) + if t[n - 1].Marked? then [t[n - 1].i] else []
  }

  /** The places marked done, in order. */
  function Marks(t: seq<Event>): seq<nat>
  {
    MarksIn(t, |t|)
  }

  function StoresIn(t: seq<Event>, n: nat): seq<bool>
    requires n <= |t|
  {
    if n == 0 then [] else StoresIn(t, n - 1) + if t[n - 1].Wrote? then [t[n - 1].ok] else []
  }

  /** The outcomes of the attempts to store, in order. */
  function Stores(t: seq<Event>): seq<bool>
  {
    StoresIn(t, |t|)
  }

  function HaltsIn(t: seq<Event>, n: nat): nat
    requires n <= |t|
  {
    if n == 0 then 0 else HaltsIn(t, n - 1) + if t[n - 1].Refused? || t[n - 1].Rejected? then 1 else 0
  }

  /** How often something stopped the way down: a hook that refused, or a core that rejected. */
  function Halts(t: seq<Event>): nat
  {
    HaltsIn(t, |t|)
  }

  datatype Turn = In(i: nat, j: nat) | Out(i: nat, j: nat)

  function TurnsIn(t: seq<Event>, n: nat): seq<Turn>
    requires n <= |t|
  {
    if n == 0 then [] else
      TurnsIn(t, n - 1) +
      match t[n - 1]
      case Enter(i, j) => [In(i, j)]
      case Leave(i, j) => [Out(i, j)]
      case _ => []
  }

  /** The entries to and exits from hooks, in order. */
  function Turns(t: seq<Event>): seq<Turn>
  {
    TurnsIn(t, |t|)
  }

  function LastBuiltIn(t: seq<Event>, i: nat, n: nat): (p: int)
    requires n <= |t|
    ensures -1 <= p < n && (p >= 0 ==> t[p].Built? && t[p].i == i)
  {
    if n == 0 then -1 else if t[n - 1].Built? && t[n - 1].i == i then n - 1 else LastBuiltIn(t, i, n - 1)
  }

  /** Where place i was last built: an index of the trace, or -1. */
  function LastBuilt(t: seq<Event>, i: nat): int
    ensures -1 <= LastBuilt(t, i) < |t|
    ensures LastBuilt(t, i) >= 0 ==> t[LastBuilt(t, i)].Built? && t[LastBuilt(t, i)].i == i
  {
    LastBuiltIn(t, i, |t|)
  }

  lemma {:induction false} PrefixReads(t: seq<Event>, e: Event, n: nat)
    requires n <= |t|
    ensures MarksIn(t + [e], n) == MarksIn(t, n) && StoresIn(t + [e], n) == StoresIn(t, n)
    ensures HaltsIn(t + [e], n) == HaltsIn(t, n) && TurnsIn(t + [e], n) == TurnsIn(t, n)
    ensures forall i :: LastBuiltIn(t + [e], i, n) == LastBuiltIn(t, i, n)
  {
    if n > 0 {
      PrefixReads(t, e, n - 1);
    }
  }

  lemma {:induction false} LogReads(t: seq<Event>, e: Event)
    ensures Marks(t + [e]) == Marks(t) + if e.Marked? then [e.i] else []
    ensures Stores(t + [e]) == Stores(t) + if e.Wrote? then [e.ok] else []
    ensures Halts(t + [e]) == Halts(t) + if e.Refused? || e.Rejected? then 1 else 0
    ensures Turns(t + [e]) ==
            Turns(t) + match e { case Enter(i, j) => [In(i, j)] case Leave(i, j) => [Out(i, j)] case _ => [] }
    ensures forall i :: LastBuilt(t + [e], i) == if e.Built? && e.i == i then |t| else LastBuilt(t, i)
  {
    PrefixReads(t, e, |t|);
  }

  lemma {:induction false} LogStores(t: seq<Event>, e: Event)
    ensures Stores(t + [e]) == Stores(t) + if e.Wrote? then [e.ok] else []
  {
    LogReads(t, e);
  }

  // ---------------------------------------------------------------------------------------
  // Every hook whatsoever
  // ---------------------------------------------------------------------------------------

  /** Nothing unchecked is built, and every store receives exactly the specifications last
      built, one for every place, built in the order of the list. */
  ghost predicate Sound(c: Chain, t: seq<Event>)
  {
    t != [] ==>
    && Sound(c, t[..|t| - 1])
    && (t[|t| - 1].Built? ==> c.entity.check(t[|t| - 1].checked).None?)
    && (t[|t| - 1].Wrote? ==> AllBuilt(c, t[..|t| - 1], |c.builders|) && Mirrors(c, t[..|t| - 1], t[|t| - 1].specs))
  }

  ghost predicate AllBuilt(c: Chain, t: seq<Event>, n: nat)
  {
    && (forall i :: 0 <= i < n ==> LastBuilt(t, i) >= 0)
    && (forall i, k :: 0 <= i < k < n ==> LastBuilt(t, i) < LastBuilt(t, k))
  }

  ghost predicate Mirrors(c: Chain, t: seq<Event>, specs: seq<Option<Spec>>)
  {
    && |specs| == |c.builders|
    && forall i :: 0 <= i < |specs| && LastBuilt(t, i) >= 0 ==>
         specs[i] == Some(c.entity.createSpec(t[LastBuilt(t, i)].used).1)
  }

  /** The entities are those of the drafts last built; a place where nothing was built has none. */
  ghost predicate Entities(c: Chain, t: seq<Event>, nodes: seq<Option<Fields>>)
  {
    && |nodes| == |c.builders|
    && forall i :: 0 <= i < |nodes| ==>
         nodes[i] == if LastBuilt(t, i) < 0 then None else Some(c.entity.createSpec(t[LastBuilt(t, i)].used).0)
  }

  ghost predicate Good(c: Chain, w: World)
  {
    Sound(c, w.trace) && Mirrors(c, w.trace, w.specs) && Entities(c, w.trace, w.nodes)
  }

  lemma {:induction false} LogKeeps(c: Chain, w: World, e: Event)
    requires Good(c, w) && !e.Built? && !e.Wrote?
    ensures Good(c, Log(w, e))
    ensures forall i :: LastBuilt(Log(w, e).trace, i) == LastBuilt(w.trace, i)
  {
    LogReads(w.trace, e);
    assert (w.trace + [e])[..|w.trace|] == w.trace;
  }

  /** For any hooks (that retry, swallow errors, answer on their own, or put another mutation
      in place of theirs) a run keeps the trace sound and leaves the places before it built. */
  lemma {:induction false} RunIsSound(c: Chain, i: nat, j: nat, w: World, m: nat)
    requires Ready(c, i, j, w, m)
    requires Good(c, w) && AllBuilt(c, w.trace, i)
    ensures Good(c, Run(c, i, j, w, m).0)
    ensures forall k :: 0 <= k < i ==> LastBuilt(Run(c, i, j, w, m).0.trace, k) == LastBuilt(w.trace, k)
    decreases |c.builders| - i, |c.Hooks(i)| - j, 1, 0
  {
    if j == |c.Hooks(i)| {
      if c.mode.Bulk? {
        BulkCoreIsSound(c, i, w, m);
      } else {
        SingleCoreIsSound(c, w, m);
      }
    } else {
      var w1 := Log(w, Enter(i, j));
      LogKeeps(c, w, Enter(i, j));
      ConsultIsSound(c, i, j, w1, m, None, c.Hooks(i)[j].tries);
      var (w2, reply) := Consult(c, i, j, w1, m, None, c.Hooks(i)[j].tries);
      LogKeeps(c, w2, Leave(i, j));
    }
  }

  lemma {:induction false} ConsultIsSound(c: Chain, i: nat, j: nat, w: World, m: nat, last: Option<Reply>, left: nat)
    requires Ready(c, i, j, w, m) && j < |c.Hooks(i)|
    requires Good(c, w) && AllBuilt(c, w.trace, i)
    ensures Good(c, Consult(c, i, j, w, m, last, left).0)
    ensures forall k :: 0 <= k < i ==> LastBuilt(Consult(c, i, j, w, m, last, left).0.trace, k) == LastBuilt(w.trace, k)
    decreases |c.builders| - i, |c.Hooks(i)| - j, 0, left
  {
    match c.Hooks(i)[j].step(w.trace, w.mutations[m].draft, last)
    case Answer(d, reply) =>
      if last.None? {
        LogKeeps(c, w, Refused(i, j));
      }
    case Forward(d, arg) =>
      if left > 0 {
        var (w1, m1) := Pass(Edit(w, m, d), m, arg);
        RunIsSound(c, i, j + 1, w1, m1);
        var (w2, reply) := Run(c, i, j + 1, w1, m1);
        ConsultIsSound(c, i, j, w2, m, Some(reply), left - 1);
      }
  }

  lemma {:induction false} BulkCoreIsSound(c: Chain, i: nat, w: World, m: nat)
    requires Fits(c, w) && i < |c.builders| && m < |w.mutations| && c.mode.Bulk?
    requires Good(c, w) && AllBuilt(c, w.trace, i)
    ensures Good(c, BulkCore(c, i, w, m).0)
    ensures forall k :: 0 <= k < i ==> LastBuilt(BulkCore(c, i, w, m).0.trace, k) == LastBuilt(w.trace, k)
    decreases |c.builders| - i, 0, 0, 1
  {
    var checked := w.mutations[w.current[c.builders[i]]].draft;
    if w.mutations[m].foreign {
      LogKeeps(c, w, Rejected(i));
    } else if c.entity.check(checked).Some? {
      LogKeeps(c, w, Rejected(i));
    } else {
      var w0 := w.(current := w.current[c.builders[i] := m]);
      var w1 := Build(c, w0, i, checked, m);
      BuildIsSound(c, i, w0, checked, m);
      DescendIsSound(c, i, w1);
      var (w2, reply) := Descend(c, i, w1);
      if reply.Ok? {
        MarkIsSound(c, w2, i, m);
      }
    }
  }

  lemma {:induction false} SingleCoreIsSound(c: Chain, w: World, m: nat)
    requires Fits(c, w) && |c.builders| == 1 && m < |w.mutations| && Good(c, w)
    ensures Good(c, SingleCore(c, w, m).0)
  {
    var own := w.current[c.builders[0]];
    var w0 := w.(mutations := w.mutations[own := w.mutations[m]]);
    var checked := w0.mutations[own].draft;
    if w.mutations[m].foreign {
      LogKeeps(c, w, Rejected(0));
    } else if c.entity.check(checked).Some? {
      LogKeeps(c, w0, Rejected(0));
    } else {
      BuildIsSound(c, 0, w0, checked, own);
      StoreOneIsSound(c, Build(c, w0, 0, checked, own), own);
    }
  }

  /** The end of the single core. */
  lemma {:induction false} StoreOneIsSound(c: Chain, w: World, own: nat)
    requires Fits(c, w) && |c.builders| == 1 && own < |w.mutations| && w.nodes[0].Some?
    requires Good(c, w) && AllBuilt(c, w.trace, 1)
    ensures var (w2, reply) := StoreAll(c, w); Good(c, if reply.Err? then w2 else MarkDone(w2, 0, own).0)
  {
    StoreIsSound(c, w);
    var (w2, reply) := StoreAll(c, w);
    if reply.Ok? {
      MarkIsSound(c, w2, 0, own);
    }
  }

  lemma {:induction false} DescendIsSound(c: Chain, i: nat, w: World)
    requires Fits(c, w) && i < |c.builders| && c.mode.Bulk?
    requires Good(c, w) && AllBuilt(c, w.trace, i + 1)
    ensures Good(c, Descend(c, i, w).0)
    ensures forall k :: 0 <= k <= i ==> LastBuilt(Descend(c, i, w).0.trace, k) == LastBuilt(w.trace, k)
    decreases |c.builders| - i, 0, 0, 0
  {
    if i < |c.builders| - 1 {
      RunIsSound(c, i + 1, 0, w, w.current[c.builders[i + 1]]);
    } else {
      StoreIsSound(c, w);
    }
  }

  lemma {:induction false} MarkIsSound(c: Chain, w: World, i: nat, m: nat)
    requires i < |w.nodes| && w.nodes[i].Some? && m < |w.mutations| && Good(c, w)
    ensures Good(c, MarkDone(w, i, m).0)
    ensures forall k :: LastBuilt(MarkDone(w, i, m).0.trace, k) == LastBuilt(w.trace, k)
  {
    LogKeeps(c, w, Marked(i));
  }

  lemma {:induction false} StoreIsSound(c: Chain, w: World)
    requires Good(c, w) && AllBuilt(c, w.trace, |c.builders|)
    ensures Good(c, StoreAll(c, w).0)
    ensures forall k :: LastBuilt(StoreAll(c, w).0.trace, k) == LastBuilt(w.trace, k)
  {
    var e := Wrote(w.specs, c.store(w.trace, w.specs).None?);
    LogReads(w.trace, e);
    assert (w.trace + [e])[..|w.trace|] == w.trace;
  }

  lemma {:induction false} BuildIsSound(c: Chain, i: nat, w: World, checked: Draft, m: nat)
    requires Fits(c, w) && i < |c.builders| && m < |w.mutations|
    requires Good(c, w) && AllBuilt(c, w.trace, i) && c.entity.check(checked).None?
    ensures Good(c, Build(c, w, i, checked, m)) && AllBuilt(c, Build(c, w, i, checked, m).trace, i + 1)
    ensures forall k :: 0 <= k < i ==> LastBuilt(Build(c, w, i, checked, m).trace, k) == LastBuilt(w.trace, k)
  {
    var e := Built(i, checked, w.mutations[m].draft);
    LogReads(w.trace, e);
    assert (w.trace + [e])[..|w.trace|] == w.trace;
  }

  // ---------------------------------------------------------------------------------------
  // Hooks that forward exactly once and pass errors on
  // ---------------------------------------------------------------------------------------

  /** Refuses with an error or forwards; afterwards passes an error on, or answers as it likes. */
  ghost predicate Relays(h: Hook)
  {
    && h.tries >= 1
    && (forall t, d :: h.step(t, d, None).Answer? ==> h.step(t, d, None).reply.Err?)
    && (forall t, d, r :: h.step(t, d, Some(r)).Answer? && (r.Err? ==> h.step(t, d, Some(r)).reply == r))
  }

  /** Relays, and afterwards hands the reply on and leaves the mutation as it is. */
  ghost predicate HandsOn(h: Hook)
  {
    Relays(h) && forall t, d, r :: h.step(t, d, Some(r)) == Answer(d, r)
  }

  ghost predicate AllHandOn(c: Chain)
  {
    forall b, j :: 0 <= b < |c.stacks| && 0 <= j < |c.stacks[b]| ==> HandsOn(c.stacks[b][j])
  }

  ghost predicate AllRelay(c: Chain)
  {
    forall b, j :: 0 <= b < |c.stacks| && 0 <= j < |c.stacks[b]| ==> Relays(c.stacks[b][j])
  }

  /** The hooks of the chain from link (i, j) on, outermost first. */
  function Places(c: Chain, i: nat, j: nat): seq<(nat, nat)>
    requires c.Valid()
    requires i < |c.builders| ==> j <= |c.Hooks(i)|
    decreases |c.builders| - i, if i < |c.builders| then |c.Hooks(i)| - j else 0
  {
    if i >= |c.builders| then []
    else if j == |c.Hooks(i)| then Places(c, i + 1, 0)
    else [(i, j)] + Places(c, i, j + 1)
  }

  function Ins(places: seq<(nat, nat)>): seq<Turn>
  {
    if places == [] then [] else [In(places[0].0, places[0].1)] + Ins(places[1..])
  }

  /** The exits of the same hooks, last entered first. */
  function Outs(places: seq<(nat, nat)>): seq<Turn>
  {
    if places == [] then [] else Outs(places[1..]) + [Out(places[0].0, places[0].1)]
  }

  /** n - 1, n - 2, ..., k */
  function Countdown(k: nat, n: nat): seq<nat>
    requires k <= n
    decreases n - k
  {
    if k == n then [] else Countdown(k + 1, n) + [k]
  }

  /** How a run from link (i, j) with trace t ended with trace t': after entering `depth` hooks
      it either halted or reached the one store; it left them in reverse order, and on the way
      it marked the places n - 1 down to k. */
  ghost predicate Unwound(c: Chain, i: nat, j: nat, t: seq<Event>, t': seq<Event>, reply: Reply, k: nat, depth: nat,
                          stores: seq<bool>)
    requires c.Valid() && i < |c.builders| && j <= |c.Hooks(i)|
  {
    && i <= k <= |c.builders|
    && depth <= |Places(c, i, j)|
    && Marks(t') == Marks(t) + Countdown(k, |c.builders|)
    && Stores(t') == Stores(t) + stores
    && Turns(t') == Turns(t) + Ins(Places(c, i, j)[..depth]) + Outs(Places(c, i, j)[..depth])
    && |stores| <= 1
    && Halts(t') == Halts(t) + 1 - |stores|
    && (stores != [] ==> depth == |Places(c, i, j)|)
    && (k < |c.builders| ==> stores == [true])
    && (reply.Ok? ==> k == i && stores == [true])
  }

  // The trace steps of which every unwinding is made.

  lemma {:induction false} UnwindRefusal(c: Chain, i: nat, j: nat, t: seq<Event>, e: Error)
    requires c.Valid() && i < |c.builders| && j < |c.Hooks(i)|
    ensures Unwound(c, i, j, t, t + [Enter(i, j)] + [Refused(i, j)] + [Leave(i, j)], Err(e), |c.builders|, 1, [])
  {
    LogReads(t, Enter(i, j));
    LogReads(t + [Enter(i, j)], Refused(i, j));
    LogReads(t + [Enter(i, j)] + [Refused(i, j)], Leave(i, j));
    var first: seq<(nat, nat)> := Places(c, i, j)[..1];
    assert first == [(i, j)] && first[1..] == [];
    assert Ins(first) == [In(i, j)] && Outs(first) == [Out(i, j)];
  }

  lemma {:induction false} UnwindHook(c: Chain, i: nat, j: nat, t: seq<Event>, t': seq<Event>, inner: Reply,
                                      reply: Reply, k: nat, depth: nat, stores: seq<bool>)
    requires c.Valid() && i < |c.builders| && j < |c.Hooks(i)|
    requires Unwound(c, i, j + 1, t + [Enter(i, j)], t', inner, k, depth, stores)
    requires reply.Ok? ==> inner.Ok?
    ensures Unwound(c, i, j, t, t' + [Leave(i, j)], reply, k, depth + 1, stores)
  {
    LogReads(t, Enter(i, j));
    LogReads(t', Leave(i, j));
    var places, inside := Places(c, i, j), Places(c, i, j + 1)[..depth];
    var entered: seq<(nat, nat)> := places[..depth + 1];
    assert places[0] == (i, j) && places[1..] == Places(c, i, j + 1);
    assert entered[0] == (i, j) && entered[1..] == inside;
    assert Ins(entered) == [In(i, j)] + Ins(inside) && Outs(entered) == Outs(inside) + [Out(i, j)];
  }

  lemma {:induction false} UnwindRejection(c: Chain, i: nat, t: seq<Event>, e: Error)
    requires c.Valid() && i < |c.builders|
    ensures Unwound(c, i, |c.Hooks(i)|, t, t + [Rejected(i)], Err(e), |c.builders|, 0, [])
  {
    LogReads(t, Rejected(i));
  }

  /** Below the core of place i: the next chain, or the store. Marks are those of later places. */
  ghost predicate Below(c: Chain, i: nat, t: seq<Event>, t': seq<Event>, reply: Reply, k: nat, depth: nat,
                        stores: seq<bool>)
    requires c.Valid() && i < |c.builders|
  {
    && i + 1 <= k <= |c.builders|
    && depth <= |Places(c, i, |c.Hooks(i)|)|
    && Marks(t') == Marks(t) + Countdown(k, |c.builders|)
    && Stores(t') == Stores(t) + stores
    && Turns(t') == Turns(t) + Ins(Places(c, i, |c.Hooks(i)|)[..depth]) + Outs(Places(c, i, |c.Hooks(i)|)[..depth])
    && |stores| <= 1
    && Halts(t') == Halts(t) + 1 - |stores|
    && (stores != [] ==> depth == |Places(c, i, |c.Hooks(i)|)|)
    && (k < |c.builders| ==> stores == [true])
    && (reply.Ok? ==> k == i + 1 && stores == [true])
  }

  lemma {:induction false} BelowStore(c: Chain, i: nat, t: seq<Event>, specs: seq<Option<Spec>>, reply: Reply)
    requires c.Valid() && i == |c.builders| - 1
    ensures Below(c, i, t, t + [Wrote(specs, reply.Ok?)], reply, |c.builders|, 0, [reply.Ok?])
  {
    LogReads(t, Wrote(specs, reply.Ok?));
  }

  lemma {:induction false} UnwindCore(c: Chain, i: nat, t: seq<Event>, checked: Draft, used: Draft, t': seq<Event>,
                                      reply: Reply, k: nat, depth: nat, stores: seq<bool>)
    requires c.Valid() && i < |c.builders|
    requires Below(c, i, t + [Built(i, checked, used)], t', reply, k, depth, stores)
    ensures reply.Err? ==> Unwound(c, i, |c.Hooks(i)|, t, t', reply, k, depth, stores)
    ensures forall r: Reply :: reply.Ok? ==> Unwound(c, i, |c.Hooks(i)|, t, t' + [Marked(i)], r, i, depth, stores)
  {
    LogReads(t, Built(i, checked, used));
    LogReads(t', Marked(i));
    assert reply.Ok? ==> Countdown(i, |c.builders|) == Countdown(i + 1, |c.builders|) + [i];
  }

  /** An edit changes what one mutation says; a hook that passes something on passes the mutation
      it was given, or a new and last one that is not done. */
  lemma {:induction false} EditAndPass(w: World, m: nat, d: Draft, arg: Argument)
    requires m < |w.mutations|
    ensures var w' := Edit(w, m, d);
      && w' == w.(mutations := w'.mutations) && |w'.mutations| == |w.mutations| && w'.mutations[m].draft == d
      && (forall r :: 0 <= r < |w.mutations| ==>
            && w'.mutations[r].done == w.mutations[r].done && w'.mutations[r].foreign == w.mutations[r].foreign
            && (r != m ==> w'.mutations[r].draft == w.mutations[r].draft))
    ensures var (w', m') := Pass(w, m, arg);
      && w' == w.(mutations := w'.mutations) && w.mutations <= w'.mutations && m' < |w'.mutations|
      && match arg
         case Same => m' == m && |w'.mutations| == |w.mutations|
         case Another(draft, foreign) =>
           && m' == |w.mutations| == |w'.mutations| - 1
           && w'.mutations[m'] == Mutation(draft, false, foreign)
  {
  }

  // ---------------------------------------------------------------------------------------
  // A hook that tries again
  // ---------------------------------------------------------------------------------------

  /** Forwards its mutation until that succeeds, and hands the last reply on. */
  ghost predicate Retries(h: Hook)
  {
    && h.tries >= 1
    && (forall t, d :: h.step(t, d, None) == Forward(d, Same))
    && (forall t, d, r: Reply :: h.step(t, d, Some(r)) == if r.Ok? then Answer(d, r) else Forward(d, Same))
  }

  /** What comes back from the rest of the chain on the n-th call in a row. */
  function Attempt(c: Chain, i: nat, j: nat, w: World, m: nat, n: nat): (r: (World, Reply))
    requires Ready(c, i, j, w, m) && j < |c.Hooks(i)|
    ensures Ready(c, i, j, r.0, m)
  {
    Run(c, i, j + 1, if n == 0 then w else Attempt(c, i, j, w, m, n - 1).0, m)
  }

  /** It calls the rest of the chain up to the first success, and at most as often as it may; the
      calls that failed leave their marks, and their specifications may have been tried. */
  lemma {:induction false} RetryStops(c: Chain, i: nat, j: nat, w: World, m: nat) returns (n: nat)
    requires Ready(c, i, j, w, m) && j < |c.Hooks(i)| && Retries(c.Hooks(i)[j])
    ensures var h := c.Hooks(i)[j];
      && n < h.tries && Consult(c, i, j, w, m, None, h.tries) == Attempt(c, i, j, w, m, n)
      && (forall k :: 0 <= k < n ==> Attempt(c, i, j, w, m, k).1.Err?)
      && (Attempt(c, i, j, w, m, n).1.Err? ==> n == h.tries - 1)
  {
    NothingEdited(w, m);
    n := RetriesFrom(c, i, j, w, m, 0, c.Hooks(i)[j].tries - 1);
  }

  lemma {:induction false} NothingEdited(w: World, m: nat)
    requires m < |w.mutations|
    ensures Edit(w, m, w.mutations[m].draft) == w
  {
  }

  /** After a reply. */
  lemma {:induction false} RetriesOnce(c: Chain, i: nat, j: nat, w: World, m: nat, reply: Reply, left: nat)
    requires Ready(c, i, j, w, m) && j < |c.Hooks(i)| && Retries(c.Hooks(i)[j])
    ensures Consult(c, i, j, w, m, Some(reply), left) ==
            if reply.Ok? || left == 0 then (w, reply)
            else
              var (w2, next) := Run(c, i, j + 1, w, m);
              Consult(c, i, j, w2, m, Some(next), left - 1)
  {
    NothingEdited(w, m);
  }

  /** Consulted after the n-th call. */
  function After(c: Chain, i: nat, j: nat, w: World, m: nat, n: nat, left: nat): (World, Reply)
    requires Ready(c, i, j, w, m) && j < |c.Hooks(i)|
  {
    var (w1, reply) := Attempt(c, i, j, w, m, n);
    Consult(c, i, j, w1, m, Some(reply), left)
  }

  lemma {:induction false} AfterOne(c: Chain, i: nat, j: nat, w: World, m: nat, n: nat, left: nat)
    requires Ready(c, i, j, w, m) && j < |c.Hooks(i)| && Retries(c.Hooks(i)[j])
    ensures After(c, i, j, w, m, n, left) ==
            if Attempt(c, i, j, w, m, n).1.Ok? || left == 0 then Attempt(c, i, j, w, m, n)
            else After(c, i, j, w, m, n + 1, left - 1)
  {
    var (w1, reply) := Attempt(c, i, j, w, m, n);
    RetriesOnce(c, i, j, w1, m, reply, left);
  }

  lemma {:induction false} RetriesFrom(c: Chain, i: nat, j: nat, w: World, m: nat, k: nat, left: nat) returns (n: nat)
    requires Ready(c, i, j, w, m) && j < |c.Hooks(i)| && Retries(c.Hooks(i)[j])
    ensures k <= n <= k + left && After(c, i, j, w, m, k, left) == Attempt(c, i, j, w, m, n)
    ensures forall x :: k <= x < n ==> Attempt(c, i, j, w, m, x).1.Err?
    ensures Attempt(c, i, j, w, m, n).1.Err? ==> n == k + left
    decreases left
  {
    AfterOne(c, i, j, w, m, k, left);
    n := k;
    if Attempt(c, i, j, w, m, k).1.Err? && left > 0 {
      n := RetriesFrom(c, i, j, w, m, k + 1, left - 1);
    }
  }

  /** The same world but for what mutations say. */
  predicate SameButDrafts(w: World, w': World)
  {
    && w'.current == w.current && w'.nodes == w.nodes && w'.specs == w.specs && w'.trace == w.trace
    && |w'.mutations| == |w.mutations|
    && forall r :: 0 <= r < |w.mutations| ==> w'.mutations[r].done == w.mutations[r].done
  }

  /** A relaying hook calls the next mutator once, if it calls it, and passes an error on. */
  lemma {:induction false} ConsultOnce(c: Chain, i: nat, j: nat, w: World, m: nat)
    requires Ready(c, i, j, w, m) && j < |c.Hooks(i)| && Relays(c.Hooks(i)[j])
    ensures var h := c.Hooks(i)[j];
      var step := h.step(w.trace, w.mutations[m].draft, None);
      var (w', reply) := Consult(c, i, j, w, m, None, h.tries);
      if step.Answer? then
        && SameButDrafts(Log(w, Refused(i, j)), w') && reply == step.reply && reply.Err?
        && w' == Edit(Log(w, Refused(i, j)), m, step.edit)
      else
        var (w1, m1) := Pass(Edit(w, m, step.edit), m, step.arg);
        var (w2, inner) := Run(c, i, j + 1, w1, m1);
        var after := h.step(w2.trace, w2.mutations[m].draft, Some(inner));
        && SameButDrafts(w2, w') && (inner.Err? ==> reply == inner)
        && w' == Edit(w2, m, after.edit) && reply == after.reply
        && (HandsOn(h) ==> w' == w2 && reply == inner)
  {
    var h := c.Hooks(i)[j];
    var step := h.step(w.trace, w.mutations[m].draft, None);
    if step.Forward? {
      var (w1, m1) := Pass(Edit(w, m, step.edit), m, step.arg);
      var (w2, inner) := Run(c, i, j + 1, w1, m1);
      assert h.step(w2.trace, w2.mutations[m].draft, Some(inner)).Answer?;
      assert Edit(w2, m, w2.mutations[m].draft) == w2;
    }
  }

  lemma {:induction false} LinkRefuses(c: Chain, i: nat, j: nat, w: World, m: nat)
    requires Ready(c, i, j, w, m) && j < |c.Hooks(i)| && Relays(c.Hooks(i)[j])
    requires c.Hooks(i)[j].step(w.trace + [Enter(i, j)], w.mutations[m].draft, None).Answer?
    ensures var (w', reply) := Run(c, i, j, w, m);
      Unwound(c, i, j, w.trace, w'.trace, reply, |c.builders|, 1, [])
  {
    ConsultOnce(c, i, j, Log(w, Enter(i, j)), m);
    UnwindRefusal(c, i, j, w.trace, Run(c, i, j, w, m).1.error);
  }

  lemma {:induction false} LinkForwards(c: Chain, i: nat, j: nat, w: World, m: nat, w1: World, m1: nat, k: nat,
                                        depth: nat, stores: seq<bool>)
    requires Ready(c, i, j, w, m) && j < |c.Hooks(i)| && Relays(c.Hooks(i)[j])
    requires var step := c.Hooks(i)[j].step(w.trace + [Enter(i, j)], w.mutations[m].draft, None);
      step.Forward? && (w1, m1) == Pass(Edit(Log(w, Enter(i, j)), m, step.edit), m, step.arg)
    requires var (w2, inner) := Run(c, i, j + 1, w1, m1);
      Unwound(c, i, j + 1, w1.trace, w2.trace, inner, k, depth, stores)
    ensures var (w', reply) := Run(c, i, j, w, m); Unwound(c, i, j, w.trace, w'.trace, reply, k, depth + 1, stores)
  {
    ConsultOnce(c, i, j, Log(w, Enter(i, j)), m);
    var (w2, inner) := Run(c, i, j + 1, w1, m1);
    UnwindHook(c, i, j, w.trace, w2.trace, inner, Run(c, i, j, w, m).1, k, depth, stores);
  }

  lemma {:induction false} RunUnwinds(c: Chain, i: nat, j: nat, w: World, m: nat)
      returns (k: nat, depth: nat, stores: seq<bool>)
    requires Ready(c, i, j, w, m) && c.mode.Bulk? && AllRelay(c)
    ensures var (w', reply) := Run(c, i, j, w, m); Unwound(c, i, j, w.trace, w'.trace, reply, k, depth, stores)
    decreases |c.builders| - i, |c.Hooks(i)| - j, 2
  {
    if j == |c.Hooks(i)| {
      k, depth, stores := CoreUnwinds(c, i, w, m);
    } else {
      var step := c.Hooks(i)[j].step(w.trace + [Enter(i, j)], w.mutations[m].draft, None);
      if step.Answer? {
        k, depth, stores := |c.builders|, 1, [];
        LinkRefuses(c, i, j, w, m);
      } else {
        var (w1, m1) := Pass(Edit(Log(w, Enter(i, j)), m, step.edit), m, step.arg);
        k, depth, stores := RunUnwinds(c, i, j + 1, w1, m1);
        LinkForwards(c, i, j, w, m, w1, m1, k, depth, stores);
        depth := depth + 1;
      }
    }
  }

  lemma {:induction false} CoreUnwinds(c: Chain, i: nat, w: World, m: nat)
      returns (k: nat, depth: nat, stores: seq<bool>)
    requires c.Valid() && i < |c.builders| && Ready(c, i, |c.Hooks(i)|, w, m) && c.mode.Bulk? && AllRelay(c)
    ensures var (w', reply) := BulkCore(c, i, w, m);
      Unwound(c, i, |c.Hooks(i)|, w.trace, w'.trace, reply, k, depth, stores)
    decreases |c.builders| - i, 0, 1
  {
    var checked := w.mutations[w.current[c.builders[i]]].draft;
    if w.mutations[m].foreign || c.entity.check(checked).Some? {
      k, depth, stores := |c.builders|, 0, [];
      UnwindRejection(c, i, w.trace, BulkCore(c, i, w, m).1.error);
    } else {
      var w1 := Build(c, w.(current := w.current[c.builders[i] := m]), i, checked, m);
      k, depth, stores := DescentUnwinds(c, i, w1);
      var (w2, reply) := Descend(c, i, w1);
      UnwindCore(c, i, w.trace, checked, w.mutations[m].draft, w2.trace, reply, k, depth, stores);
      k := if reply.Ok? then i else k;
    }
  }

  lemma {:induction false} DescentUnwinds(c: Chain, i: nat, w: World)
      returns (k: nat, depth: nat, stores: seq<bool>)
    requires Fits(c, w) && i < |c.builders| && c.mode.Bulk? && AllRelay(c)
    ensures var (w', reply) := Descend(c, i, w); Below(c, i, w.trace, w'.trace, reply, k, depth, stores)
    decreases |c.builders| - i, 0, 0
  {
    if i < |c.builders| - 1 {
      k, depth, stores := RunUnwinds(c, i + 1, 0, w, w.current[c.builders[i + 1]]);
    } else {
      var reply := StoreAll(c, w).1;
      k, depth, stores := |c.builders|, 0, [reply.Ok?];
      BelowStore(c, i, w.trace, w.specs, reply);
    }
  }
}
