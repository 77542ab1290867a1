// Query builders with their eager-loading sub-queries: a tree of objects that their methods
// update in place, and Clone, which duplicates it.
module QueryBuilders {
  import opened Wrappers
  import opened GoSlices

  // Predicates, order options, interceptors, columns and path closures, by name.
  type Name = nat

  // ---------------------------------------------------------------------------------------
  // Builders as values
  // ---------------------------------------------------------------------------------------

  datatype Settings = Settings(limit: Option<int>, offset: Option<int>, unique: Option<bool>, fields: seq<Name>)

  /** What was asked of a builder itself. */
  datatype Said = Said(ctx: Settings, predicates: seq<Name>, order: seq<Name>)

  /** Everything that a builder and its sub-queries say, edge by edge. */
  datatype Tree = Tree(said: Said, inters: seq<Name>, path: Option<Name>, edges: Fields)

  /** The `with` fields of a builder, one after the other. */
  datatype Fields = NoFields | Field(sub: Option<Tree>, next: Fields)

  datatype Op =
    | Where(ps: seq<Name>)
    | Order(os: seq<Name>)
    | Limit(n: int)
    | Offset(n: int)
    | Unique(b: bool)
    | Select(fields: seq<Name>)
    | With(edge: nat, inters: seq<Name>, arity: nat)    // of the edge's client and its query type

  const EMPTY: Settings := Settings(None, None, None, [])

  function SaidNow(s: Said, op: Op): Said
    requires !op.With?
  {
    match op
    case Where(ps) => s.(predicates := s.predicates + ps)
    case Order(os) => s.(order := s.order + os)
    case Limit(n) => s.(ctx := s.ctx.(limit := Some(n)))
    case Offset(n) => s.(ctx := s.ctx.(offset := Some(n)))
    case Unique(b) => s.(ctx := s.ctx.(unique := Some(b)))
    case Select(fields) => s.(ctx := s.ctx.(fields := s.ctx.fields + fields))
  }

  /** A builder that says nothing yet, with `arity` edges. */
  function Blank(inters: seq<Name>, arity: nat): Tree
  {
    Tree(Said(EMPTY, [], []), inters, None, NilFields(arity))
  }

  function NilFields(n: nat): Fields
  {
    if n == 0 then NoFields else Field(None, NilFields(n - 1))
  }

  /** Field e, if there is one, gets a sub-query. */
  function Put(fields: Fields, e: nat, t: Tree): Fields
  {
    if fields.NoFields? then fields
    else if e == 0 then fields.(sub := Some(t))
    else fields.(next := Put(fields.next, e - 1, t))
  }

  function Acted(t: Tree, op: Op): Tree
  {
    if op.With? then t.(edges := Put(t.edges, op.edge, Blank(op.inters, op.arity))) else t.(said := SaidNow(t.said, op))
  }

  /** A call on the sub-query at the end of a path of edges, if there is one. */
  datatype Call = Call(path: seq<nat>, op: Op)

  function Called(t: Tree, path: seq<nat>, op: Op): Tree
    decreases |path|, 0
  {
    if path == [] then Acted(t, op) else t.(edges := CalledAt(t.edges, path[0], path[1..], op))
  }

  function CalledAt(fields: Fields, e: nat, path: seq<nat>, op: Op): Fields
    decreases |path|, 1 + e
  {
    if fields.NoFields? then fields
    else if e > 0 then fields.(next := CalledAt(fields.next, e - 1, path, op))
    else if fields.sub.Some? then fields.(sub := Some(Called(fields.sub.value, path, op)))
    else fields
  }

  function CalledAll(t: Tree, calls: seq<Call>): Tree
  {
    if calls == [] then t
    else var last := calls[|calls| - 1]; Called(CalledAll(t, calls[..|calls| - 1]), last.path, last.op)
  }

  // ---------------------------------------------------------------------------------------
  // Builders as objects
  // ---------------------------------------------------------------------------------------

  class QueryContext {
    var limit: Option<int>
    var offset: Option<int>
    var unique: Option<bool>
    var fields: Slice<Name>

    constructor (limit: Option<int>, offset: Option<int>, unique: Option<bool>, fields: Slice<Name>)
      ensures this.limit == limit && this.offset == offset && this.unique == unique && this.fields == fields
    {
      this.limit, this.offset, this.unique, this.fields := limit, offset, unique, fields;
    }

    ghost function View(): Settings
      requires fields.Fits()
      reads this, fields.arr
    {
      Settings(limit, offset, unique, fields.View())
    }

    method Clone() returns (c: QueryContext)
      requires fields.Fits()
      ensures fresh(c) && fresh(c.fields.arr) && c.fields.Fits() && c.View() == View()
      ensures c.limit == limit && c.offset == offset && c.unique == unique && c.fields.View() == fields.View()
    {
      var fs := Copy(fields.arr[..fields.len]);
      c := new QueryContext(limit, offset, unique, fs);
    }
  }

  /** append([]T{}, xs...) */
  method Copy(xs: seq<Name>) returns (r: Slice<Name>)
    ensures r.Fits() && fresh(r.arr) && r.View() == xs
  {
    var none := new Name[0];
    r := Append(Slice(none, 0, 0), xs, 0);
  }

  // Every object knows, as ghost fields, what it says and which objects it is made of; Valid ties
  // these to the fields of the program.

  /** What a builder has beside its sub-queries and its path. */
  class Steps {
    var ctx: QueryContext
    var predicates: Slice<Name>
    var order: Slice<Name>
    ghost var said: Said
    ghost var Repr: set<object>

    ghost predicate Valid()
      reads this, Repr
    {
      && this in Repr && ctx in Repr && predicates.arr in Repr && order.arr in Repr && ctx.fields.arr in Repr
      && predicates.Fits() && order.Fits() && ctx.fields.Fits()
      && predicates.arr != order.arr && order.arr != ctx.fields.arr && ctx.fields.arr != predicates.arr
      && said == Said(ctx.View(), predicates.View(), order.View())
    }

    constructor (ctx: QueryContext, predicates: Slice<Name>, order: Slice<Name>)
      requires predicates.Fits() && order.Fits() && ctx.fields.Fits()
      requires predicates.arr != order.arr && order.arr != ctx.fields.arr && ctx.fields.arr != predicates.arr
      ensures Valid() && Repr == {this, ctx, predicates.arr, order.arr, ctx.fields.arr}
      ensures said == Said(ctx.View(), predicates.View(), order.View())
    {
      this.ctx, this.predicates, this.order := ctx, predicates, order;
      Repr := {this, ctx, predicates.arr, order.arr, ctx.fields.arr};
      said := Said(ctx.View(), predicates.View(), order.View());
    }

    /** The part of Clone that copies these: each list into an array of its own, so that neither
        copy can append into spare capacity of the other. */
    method Clone() returns (c: Steps)
      requires Valid()
      ensures c.Valid() && fresh(c.Repr) && c.said == said && c.SameFields(this)
    {
      var ps, os := predicates.arr[..predicates.len], order.arr[..order.len];
      var cx := ctx.Clone();
      c := NewSteps(cx, ps, os);
    }

    /** Field by field the same as another. */
    ghost predicate SameFields(s: Steps)
      requires Valid() && s.Valid()
      reads this, Repr, s, s.Repr
    {
      && ctx.limit == s.ctx.limit && ctx.offset == s.ctx.offset && ctx.unique == s.ctx.unique
      && ctx.fields.View() == s.ctx.fields.View()
      && predicates.View() == s.predicates.View() && order.View() == s.order.View()
    }

    method Act(op: Op, room: nat)
      requires Valid() && !op.With?
      modifies Repr
      ensures Valid() && fresh(Repr - old(Repr)) && said == SaidNow(old(said), op)
    {
      said := SaidNow(said, op);
      match op
      case Where(ps) =>
        predicates := Append(predicates, ps, room);
        Repr := Repr + {predicates.arr};
      case Order(os) =>
        order := Append(order, os, room);
        Repr := Repr + {order.arr};
      case Limit(n) => ctx.limit := Some(n);
      case Offset(n) => ctx.offset := Some(n);
      case Unique(b) => ctx.unique := Some(b);
      case Select(fields) =>
        ctx.fields := Append(ctx.fields, fields, room);
        Repr := Repr + {ctx.fields.arr};
    }
  }

  method NewSteps(ctx: QueryContext, predicates: seq<Name>, order: seq<Name>) returns (c: Steps)
    requires ctx.fields.Fits()
    ensures c.Valid() && fresh(c.Repr - {ctx, ctx.fields.arr}) && c.said == Said(ctx.View(), predicates, order)
  {
    var ps := Copy(predicates);
    var os := Copy(order);
    c := new Steps(ctx, ps, os);
  }

  /** One of the `with` fields of a builder; the fields of a builder are chained. */
  class Edge {
    var sub: Query?
    const next: Edge?
    ghost var said: Fields
    ghost var Repr: set<object>

    ghost predicate Valid()
      reads this, Repr
      decreases Repr
    {
      && this in Repr
      && (sub != null ==> sub in Repr && sub.Repr <= Repr && this !in sub.Repr && sub.Valid())
      && (next != null ==> next in Repr && next.Repr <= Repr && this !in next.Repr && next.Valid())
      && (sub != null && next != null ==> sub.Repr !! next.Repr)
      && said == Field(if sub == null then None else Some(sub.said), if next == null then NoFields else next.said)
    }

    constructor (sub: Query?, next: Edge?)
      requires (sub != null ==> sub.Valid()) && (next != null ==> next.Valid())
      requires sub != null && next != null ==> sub.Repr !! next.Repr
      ensures Valid()
      ensures Repr == {this} + (if sub == null then {} else sub.Repr) + (if next == null then {} else next.Repr)
      ensures said == Field(if sub == null then None else Some(sub.said), if next == null then NoFields else next.said)
    {
      this.sub, this.next := sub, next;
      Repr := {this} + (if sub == null then {} else sub.Repr) + (if next == null then {} else next.Repr);
      said := Field(if sub == null then None else Some(sub.said), if next == null then NoFields else next.said);
    }

    method Clone() returns (c: Edge)
      requires Valid()
      ensures c.Valid() && fresh(c.Repr) && c.said == said
      decreases Repr, 1
    {
      var s := CloneSub();
      var n: Edge? := null;
      if next != null {
        n := next.Clone();
      }
      c := new Edge(s, n);
    }

    /** A nil sub-query stays nil. */
    method CloneSub() returns (s: Query?)
      requires Valid()
      ensures s == null <==> sub == null
      ensures s != null ==> s.Valid() && fresh(s.Repr) && s.said == sub.said
      decreases Repr, 0
    {
      s := null;
      if sub != null {
        s := sub.Clone();
      }
    }

    /** The field and those after it, each in order and apart from one another. */
    ghost predicate Apart()
      reads this, sub, next, if sub == null then {} else sub.Repr, if next == null then {} else next.Repr
    {
      && (sub != null ==> sub in sub.Repr && this !in sub.Repr && sub.Valid())
      && (next != null ==> next in next.Repr && this !in next.Repr && next.Valid())
      && (sub != null && next != null ==> sub.Repr !! next.Repr)
    }

    /** What this object says of itself is brought up to date with the others. */
    ghost method Refresh()
      requires Apart()
      modifies this`Repr, this`said
      ensures Valid()
      ensures Repr ==
              old(Repr) + {this} + (if sub == null then {} else sub.Repr) + (if next == null then {} else next.Repr)
      ensures said == Field(if sub == null then None else Some(sub.said), if next == null then NoFields else next.said)
    {
      Repr := Repr + {this} + (if sub == null then {} else sub.Repr) + (if next == null then {} else next.Repr);
      said := Field(if sub == null then None else Some(sub.said), if next == null then NoFields else next.said);
    }

    method SetHere(s: Query)
      requires Valid() && s.Valid() && Repr !! s.Repr
      modifies this
      ensures Valid() && Repr <= old(Repr) + s.Repr && said == Put(old(said), 0, s.said)
    {
      sub := s;
      Refresh();
    }

    /** Field e gets the sub-query. */
    method Set(e: nat, s: Query)
      requires Valid() && s.Valid() && Repr !! s.Repr
      modifies Repr
      ensures Valid() && Repr <= old(Repr) + s.Repr
      ensures said == Put(old(said), e, s.said)
      decreases e
    {
      if e == 0 {
        SetHere(s);
      } else if next != null {
        next.Set(e - 1, s);
        Refresh();
      }
    }

    method DoHere(path: seq<nat>, op: Op, room: nat)
      requires Valid()
      modifies Repr
      ensures Valid() && fresh(Repr - old(Repr)) && said == CalledAt(old(said), 0, path, op)
      decreases |path|, 1
    {
      if sub != null {
        sub.Do(path, op, room);
        Refresh();
      }
    }

    /** A call on the sub-query of field e, or on one below it. */
    method Do(e: nat, path: seq<nat>, op: Op, room: nat)
      requires Valid()
      modifies Repr
      ensures Valid() && fresh(Repr - old(Repr)) && said == CalledAt(old(said), e, path, op)
      decreases |path|, e + 2
    {
      if e == 0 {
        DoHere(path, op, room);
      } else if next != null {
        next.Do(e - 1, path, op, room);
        Refresh();
      }
    }
  }

  class Query {
    const steps: Steps
    const inters: seq<Name>
    const path: Option<Name>
    const edges: Edge?
    ghost var said: Tree
    ghost var Repr: set<object>

    ghost predicate Valid()
      reads this, Repr
      decreases Repr
    {
      && this in Repr && steps in Repr && steps.Repr <= Repr && this !in steps.Repr && steps.Valid()
      && (edges != null ==>
            edges in Repr && edges.Repr <= Repr && this !in edges.Repr && steps.Repr !! edges.Repr && edges.Valid())
      && said == Tree(steps.said, inters, path, if edges == null then NoFields else edges.said)
    }

    constructor (steps: Steps, inters: seq<Name>, path: Option<Name>, edges: Edge?)
      requires steps.Valid() && (edges != null ==> edges.Valid() && steps.Repr !! edges.Repr)
      ensures Valid() && Repr == {this} + steps.Repr + (if edges == null then {} else edges.Repr)
      ensures said == Tree(steps.said, inters, path, if edges == null then NoFields else edges.said)
    {
      this.steps, this.inters, this.path, this.edges := steps, inters, path, edges;
      Repr := {this} + steps.Repr + (if edges == null then {} else edges.Repr);
      said := Tree(steps.said, inters, path, if edges == null then NoFields else edges.said);
    }

    /** A duplicate of the builder and of all its sub-queries. The path alone is the same closure. */
    method Clone() returns (c: Query)
      requires Valid()
      ensures c.Valid() && fresh(c.Repr) && c.said == said
      ensures c.steps.SameFields(steps) && c.inters == inters && c.path == path
      decreases Repr
    {
      var s := steps.Clone();
      var es: Edge? := null;
      if edges != null {
        es := edges.Clone();
      }
      c := new Query(s, inters, path, es);
    }

    /** WithOwner and its siblings. */
    method With(e: nat, inters: seq<Name>, arity: nat)
      requires Valid()
      modifies Repr
      ensures Valid() && fresh(Repr - old(Repr))
      ensures said == old(said).(edges := Put(old(said).edges, e, Blank(inters, arity)))
    {
      if edges != null {
        var blank := NewQuery(inters, arity);
        Attach(e, blank);
      }
    }

    method Attach(e: nat, s: Query)
      requires Valid() && s.Valid() && Repr !! s.Repr && edges != null
      modifies Repr
      ensures Valid() && Repr <= old(Repr) + s.Repr
      ensures said == old(said).(edges := Put(old(said).edges, e, s.said))
    {
      edges.Set(e, s);
      assert steps.Valid() && steps.Repr !! edges.Repr;
      Repr := Repr + edges.Repr;
      said := said.(edges := edges.said);
    }

    /** A call on this builder or, through its edges, on one of its sub-queries. */
    method Do(path: seq<nat>, op: Op, room: nat)
      requires Valid()
      modifies Repr
      ensures Valid() && fresh(Repr - old(Repr)) && said == Called(old(said), path, op)
      decreases |path|, 0
    {
      if path != [] {
        if edges != null {
          edges.Do(path[0], path[1..], op, room);
          Repr := Repr + edges.Repr;
          said := said.(edges := edges.said);
        }
      } else if op.With? {
        With(op.edge, op.inters, op.arity);
      } else {
        steps.Act(op, room);
        Repr := Repr + steps.Repr;
        said := said.(said := steps.said);
      }
    }
  }

  /** client.Query() */
  method NewQuery(inters: seq<Name>, arity: nat) returns (q: Query)
    ensures q.Valid() && fresh(q.Repr) && q.said == Blank(inters, arity)
  {
    var steps := BlankSteps();
    var edges := NewEdges(arity);
    q := new Query(steps, inters, None, edges);
  }

  method BlankSteps() returns (c: Steps)
    ensures c.Valid() && fresh(c.Repr) && c.said == Said(EMPTY, [], [])
  {
    var none := new Name[0];
    var ctx := new QueryContext(None, None, None, Slice(none, 0, 0));
    c := NewSteps(ctx, [], []);
  }

  method NewEdges(arity: nat) returns (es: Edge?)
    ensures arity == 0 <==> es == null
    ensures es != null ==> es.Valid() && fresh(es.Repr) && es.said == NilFields(arity)
  {
    es := null;
    for i := 0 to arity
      invariant i == 0 <==> es == null
      invariant es != null ==> es.Valid() && fresh(es.Repr) && es.said == NilFields(i)
    {
      es := new Edge(null, es);
    }
  }

  // ---------------------------------------------------------------------------------------
  // What calls do
  // ---------------------------------------------------------------------------------------

  // What a call gives, by kind of call.

  function LimitGiven(): Op -> Option<int>
  {
    (op: Op) => if op.Limit? then Some(op.n) else None
  }

  function OffsetGiven(): Op -> Option<int>
  {
    (op: Op) => if op.Offset? then Some(op.n) else None
  }

  function UniqueGiven(): Op -> Option<bool>
  {
    (op: Op) => if op.Unique? then Some(op.b) else None
  }

  function WhereGiven(): Op -> seq<Name>
  {
    (op: Op) => if op.Where? then op.ps else []
  }

  function OrderGiven(): Op -> seq<Name>
  {
    (op: Op) => if op.Order? then op.os else []
  }

  function SelectGiven(): Op -> seq<Name>
  {
    (op: Op) => if op.Select? then op.fields else []
  }

  /** What the last call that gives something gives, or what was there before. */
  function LastGiven<T>(ops: seq<Op>, given: Op -> Option<T>, before: Option<T>): Option<T>
  {
    if ops == [] then before
    else if given(ops[|ops| - 1]).Some? then given(ops[|ops| - 1])
    else LastGiven(ops[..|ops| - 1], given, before)
  }

  /** What all calls give, one after the other. */
  function AllGiven(ops: seq<Op>, given: Op -> seq<Name>): seq<Name>
  {
    if ops == [] then [] else AllGiven(ops[..|ops| - 1], given) + given(ops[|ops| - 1])
  }

  /** Calls on a builder itself. */
  function OnTop(ops: seq<Op>): seq<Call>
  {
    seq(|ops|, i requires 0 <= i < |ops| => Call([], ops[i]))
  }

  function SaidBy(before: Said, ops: seq<Op>): Said
  {
    Said(
      Settings(LastGiven(ops, LimitGiven(), before.ctx.limit), LastGiven(ops, OffsetGiven(), before.ctx.offset),
               LastGiven(ops, UniqueGiven(), before.ctx.unique), before.ctx.fields + AllGiven(ops, SelectGiven())),
      before.predicates + AllGiven(ops, WhereGiven()),
      before.order + AllGiven(ops, OrderGiven()))
  }

  /** Limit, offset and uniqueness are those of the last call that sets them; predicates, order and
      fields are all that were given, in order. */
  lemma {:induction false} CallsSay(t: Tree, ops: seq<Op>)
    ensures CalledAll(t, OnTop(ops)).said == SaidBy(t.said, ops)
  {
    if ops != [] {
      var init, op := ops[..|ops| - 1], ops[|ops| - 1];
      var calls := OnTop(ops);
      assert calls[..|calls| - 1] == OnTop(init);
      CallsSay(t, init);
      OneCallSays(SaidBy(t.said, init), op);
      SaidByOneMore(t.said, ops);
      assert CalledAll(t, calls) == Called(CalledAll(t, OnTop(init)), [], op);
    } else {
      assert SaidBy(t.said, ops) == t.said;
    }
  }

  lemma {:induction false} OneGiven<T>(op: Op, given: Op -> Option<T>, before: Option<T>)
    ensures LastGiven([op], given, before) == if given(op).Some? then given(op) else before
  {
    assert [op][..0] == [];
  }

  lemma {:induction false} OneListGiven(op: Op, given: Op -> seq<Name>)
    ensures AllGiven([op], given) == given(op)
  {
    assert [op][..0] == [];
  }

  lemma {:induction false} SaidByOne(before: Said, op: Op)
    ensures SaidBy(before, [op]) ==
            Said(
              Settings(if op.Limit? then Some(op.n) else before.ctx.limit,
                       if op.Offset? then Some(op.n) else before.ctx.offset,
                       if op.Unique? then Some(op.b) else before.ctx.unique,
                       before.ctx.fields + SelectGiven()(op)),
              before.predicates + WhereGiven()(op),
              before.order + OrderGiven()(op))
  {
    OneGiven(op, LimitGiven(), before.ctx.limit);
    OneGiven(op, OffsetGiven(), before.ctx.offset);
    OneGiven(op, UniqueGiven(), before.ctx.unique);
    OneListGiven(op, WhereGiven());
    OneListGiven(op, OrderGiven());
    OneListGiven(op, SelectGiven());
  }

  lemma {:induction false} OneCallSays(before: Said, op: Op)
    ensures (if op.With? then before else SaidNow(before, op)) == SaidBy(before, [op])
  {
    SaidByOne(before, op);
  }

  lemma {:induction false} SaidByOneMore(before: Said, ops: seq<Op>)
    requires ops != []
    ensures SaidBy(before, ops) == SaidBy(SaidBy(before, ops[..|ops| - 1]), [ops[|ops| - 1]])
  {
    SaidByOne(SaidBy(before, ops[..|ops| - 1]), ops[|ops| - 1]);
  }

  /** The fields of a builder after calls on it. */
  method CallAll(q: Query, ops: seq<Op>, rooms: seq<nat>)
    requires q.Valid() && |rooms| == |ops|
    modifies q.Repr
    ensures q.Valid() && fresh(q.Repr - old(q.Repr)) && q.said == CalledAll(old(q.said), OnTop(ops))
    ensures q.steps.ctx.limit == LastGiven(ops, LimitGiven(), old(q.steps.ctx.limit))
    ensures q.steps.ctx.offset == LastGiven(ops, OffsetGiven(), old(q.steps.ctx.offset))
    ensures q.steps.ctx.unique == LastGiven(ops, UniqueGiven(), old(q.steps.ctx.unique))
    ensures q.steps.ctx.fields.View() == old(q.steps.ctx.fields.View()) + AllGiven(ops, SelectGiven())
    ensures q.steps.predicates.View() == old(q.steps.predicates.View()) + AllGiven(ops, WhereGiven())
    ensures q.steps.order.View() == old(q.steps.order.View()) + AllGiven(ops, OrderGiven())
  {
    CallsSay(q.said, ops);
    CallEach(q, OnTop(ops), rooms);
  }

  method CallEach(q: Query, calls: seq<Call>, rooms: seq<nat>)
    requires q.Valid() && |rooms| == |calls|
    modifies q.Repr
    ensures q.Valid() && fresh(q.Repr - old(q.Repr)) && q.said == CalledAll(old(q.said), calls)
  {
    ghost var said := q.said;
    for i := 0 to |calls|
      invariant q.Valid() && fresh(q.Repr - old(q.Repr)) && q.said == CalledAll(said, calls[..i])
    {
      assert calls[..i + 1][..i] == calls[..i];
      q.Do(calls[i].path, calls[i].op, rooms[i]);
    }
    assert calls[..|calls|] == calls;
  }

  /** How many fields there are for edges. */
  function Width(f: Fields): nat
  {
    if f.NoFields? then 0 else 1 + Width(f.next)
  }

  /** The sub-query in field e. */
  function At(f: Fields, e: nat): Option<Tree>
  {
    if f.NoFields? then None else if e == 0 then f.sub else At(f.next, e - 1)
  }

  /** WithX puts a blank sub-query in its field and leaves the others alone. */
  lemma {:induction false} PutIs(f: Fields, e: nat, t: Tree, x: nat)
    ensures Width(Put(f, e, t)) == Width(f)
    ensures At(Put(f, e, t), x) == if x == e && e < Width(f) then Some(t) else At(f, x)
  {
    if f.Field? && e > 0 {
      PutIs(f.next, e - 1, t, if x > 0 then x - 1 else 0);
    }
  }

  lemma {:induction false} BlankIs(inters: seq<Name>, arity: nat, e: nat)
    ensures Blank(inters, arity).said == Said(Settings(None, None, None, []), [], [])
    ensures Blank(inters, arity).inters == inters && Blank(inters, arity).path == None
    ensures Width(Blank(inters, arity).edges) == arity && At(Blank(inters, arity).edges, e) == None
  {
    if arity > 0 {
      BlankIs(inters, arity - 1, if e > 0 then e - 1 else 0);
    }
  }

  /** A call on a sub-query changes that field only, and there does what the call does. */
  lemma {:induction false} CalledAtIs(f: Fields, e: nat, path: seq<nat>, op: Op, x: nat)
    ensures Width(CalledAt(f, e, path, op)) == Width(f)
    ensures At(CalledAt(f, e, path, op), x) ==
            if x == e && At(f, e).Some? then Some(Called(At(f, e).value, path, op)) else At(f, x)
    decreases e
  {
    if f.Field? && e > 0 {
      CalledAtIs(f.next, e - 1, path, op, if x > 0 then x - 1 else 0);
    }
  }

  // ---------------------------------------------------------------------------------------
  // Independence
  // ---------------------------------------------------------------------------------------

  /** A call on one of two builders. */
  datatype Turn = Turn(onClone: bool, call: Call)

  /** The calls on one of them, in order. */
  function CallsOn(turns: seq<Turn>, clone: bool): seq<Call>
  {
    if turns == [] then []
    else
      var before, last := CallsOn(turns[..|turns| - 1], clone), turns[|turns| - 1];
      if last.onClone == clone then before + [last.call] else before
  }

  lemma {:induction false} CallsOnNext(turns: seq<Turn>, i: nat, clone: bool, t: Tree)
    requires i < |turns|
    ensures var call := turns[i].call;
      CalledAll(t, CallsOn(turns[..i + 1], clone)) ==
      if turns[i].onClone == clone then Called(CalledAll(t, CallsOn(turns[..i], clone)), call.path, call.op)
      else CalledAll(t, CallsOn(turns[..i], clone))
  {
    assert turns[..i + 1][..i] == turns[..i];
    var calls := CallsOn(turns[..i], clone);
    assert (calls + [turns[i].call])[..|calls|] == calls;
  }

  /** What a builder that began as t says after the first i turns. */
  function After(t: Tree, turns: seq<Turn>, i: nat, clone: bool): Tree
    requires i <= |turns|
  {
    if i == 0 then t else TurnedOn(After(t, turns, i - 1, clone), turns[i - 1], clone)
  }

  function TurnedOn(t: Tree, turn: Turn, clone: bool): Tree
  {
    if turn.onClone == clone then Called(t, turn.call.path, turn.call.op) else t
  }

  /** It is what its own calls make of t. */
  lemma {:induction false} AfterIs(t: Tree, turns: seq<Turn>, i: nat, clone: bool)
    requires i <= |turns|
    ensures After(t, turns, i, clone) == CalledAll(t, CallsOn(turns[..i], clone))
  {
    if i > 0 {
      AfterIs(t, turns, i - 1, clone);
      CallsOnNext(turns, i - 1, clone, t);
    }
  }

  /** Two builders without an object in common. */
  ghost predicate Separate(q: Query, c: Query)
    reads q, q.Repr, c, c.Repr
  {
    q.Valid() && c.Valid() && q.Repr !! c.Repr
  }

  method TakeTurn(q: Query, c: Query, turn: Turn, room: nat)
    requires Separate(q, c)
    modifies if turn.onClone then c.Repr else q.Repr
    ensures Separate(q, c) && fresh(q.Repr - old(q.Repr)) && fresh(c.Repr - old(c.Repr))
    ensures q.said == TurnedOn(old(q.said), turn, false) && c.said == TurnedOn(old(c.said), turn, true)
  {
    if turn.onClone {
      c.Do(turn.call.path, turn.call.op, room);
    } else {
      q.Do(turn.call.path, turn.call.op, room);
    }
  }

  method TakeTurns(q: Query, c: Query, turns: seq<Turn>, rooms: seq<nat>)
    requires Separate(q, c) && |rooms| == |turns|
    modifies q.Repr, c.Repr
    ensures Separate(q, c) && fresh(q.Repr - old(q.Repr)) && fresh(c.Repr - old(c.Repr))
    ensures q.said == After(old(q.said), turns, |turns|, false) && c.said == After(old(c.said), turns, |turns|, true)
  {
    ghost var said, said' := q.said, c.said;
    for i := 0 to |turns|
      invariant Separate(q, c) && fresh(q.Repr - old(q.Repr)) && fresh(c.Repr - old(c.Repr))
      invariant q.said == After(said, turns, i, false) && c.said == After(said', turns, i, true)
    {
      TakeTurn(q, c, turns[i], rooms[i]);
    }
  }

  /** A builder and its clone, and any calls on either of them and on their sub-queries, however
      they alternate and however much spare capacity the lists happen to have: each ends up as
      what its own calls make of the original. */
  method CloneAndCall(q: Query, turns: seq<Turn>, rooms: seq<nat>) returns (c: Query)
    requires q.Valid() && |rooms| == |turns|
    modifies q.Repr
    ensures q.Valid() && c.Valid() && fresh(c.Repr) && q.Repr !! c.Repr
    ensures q.said == CalledAll(old(q.said), CallsOn(turns, false))
    ensures c.said == CalledAll(old(q.said), CallsOn(turns, true))
  {
    AfterIs(q.said, turns, |turns|, false);
    AfterIs(q.said, turns, |turns|, true);
    assert turns[..|turns|] == turns;
    c := q.Clone();
    TakeTurns(q, c, turns, rooms);
  }

  /** No call changes the path or the interceptors that a builder began with, so that copies keep
      sharing their path. */
  lemma {:induction false} PathStays(t: Tree, calls: seq<Call>)
    ensures CalledAll(t, calls).path == t.path && CalledAll(t, calls).inters == t.inters
  {
    if calls != [] {
      PathStays(t, calls[..|calls| - 1]);
    }
  }

  /** Neither path leads through the end of the other. */
  predicate Diverge(p: seq<nat>, p': seq<nat>)
    decreases |p|
  {
    p != [] && p' != [] && (p[0] != p'[0] || Diverge(p[1..], p'[1..]))
  }

  /** Sub-queries at paths that part ways do not disturb each other. */
  lemma {:induction false} CallsCommute(t: Tree, p: seq<nat>, op: Op, p': seq<nat>, op': Op)
    requires Diverge(p, p')
    ensures Called(Called(t, p, op), p', op') == Called(Called(t, p', op'), p, op)
    decreases |p|, 0
  {
    CallsAtCommute(t.edges, p[0], p[1..], op, p'[0], p'[1..], op');
  }

  lemma {:induction false} CallsAtCommute(f: Fields, e: nat, p: seq<nat>, op: Op, e': nat, p': seq<nat>, op': Op)
    requires e != e' || Diverge(p, p')
    ensures CalledAt(CalledAt(f, e, p, op), e', p', op') == CalledAt(CalledAt(f, e', p', op'), e, p, op)
    decreases |p|, 1 + e
  {
    if f.Field? {
      if e > 0 && e' > 0 {
        CallsAtCommute(f.next, e - 1, p, op, e' - 1, p', op');
      } else if e == 0 && e' == 0 && f.sub.Some? {
        CallsCommute(f.sub.value, p, op, p', op');
      }
    }
  }
}
