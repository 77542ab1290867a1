// The ports of an exit rule: uint16 in the entity, a signed delta in a mutation, an integer
// column in the database.
module ExitRulePorts {
  import opened Wrappers

  type Port = x: int | 0 <= x < 0x1_0000
  type Delta = x: int | -0x8000 <= x < 0x8000

  /** uint16(value.Int64), the decoder's conversion. */
  function Narrow(column: int): Port
  {
    column % 0x1_0000
  }

  /** The int16 that a sum wraps around to. */
  function Wrap(sum: int): Delta
  {
    (sum + 0x8000) % 0x1_0000 - 0x8000
  }

  /** Addition of int16. */
  function AddDeltas(a: Delta, b: Delta): Delta
  {
    Wrap(a + b)
  }

  // ---------------------------------------------------------------------------------------
  // The mutation
  // ---------------------------------------------------------------------------------------

  datatype PortOp = Set(port: Port) | Add(delta: Delta) | Reset

  /** What a mutation tells the update to write. */
  datatype Pending = Pending(to: Option<Port>, added: Option<Delta>)

  function Step(p: Pending, op: PortOp): Pending
  {
    match op
    case Set(port) => Pending(Some(port), None)
    case Add(delta) => p.(added := Some(if p.added.Some? then AddDeltas(p.added.value, delta) else delta))
    case Reset => Pending(None, None)
  }

  function After(ops: seq<PortOp>): Pending
  {
    if ops == [] then Pending(None, None) else Step(After(ops[..|ops| - 1]), ops[|ops| - 1])
  }

  class PortMutation {
    var port: Option<Port>
    var addPort: Option<Delta>

    constructor ()
      ensures State() == Pending(None, None)
    {
      port, addPort := None, None;
    }

    function State(): Pending
      reads this
    {
      Pending(port, addPort)
    }

    method SetPort(u: Port)
      modifies this
      ensures State() == Step(old(State()), Set(u))
    {
      port, addPort := Some(u), None;
    }

    method AddPort(u: Delta)
      modifies this
      ensures State() == Step(old(State()), Add(u))
    {
      if addPort.Some? {
        addPort := Some(AddDeltas(addPort.value, u));
      } else {
        addPort := Some(u);
      }
    }

    method ResetPort()
      modifies this
      ensures State() == Step(old(State()), Reset)
    {
      port, addPort := None, None;
    }
  }

  /** The setters of the update builder: setting resets first. */
  method CallAll(m: PortMutation, ops: seq<PortOp>)
    requires m.State() == After([])
    modifies m
    ensures m.State() == After(ops)
  {
    for i := 0 to |ops|
      invariant m.State() == After(ops[..i])
    {
      assert ops[..i + 1][..i] == ops[..i];
      match ops[i]
      case Set(port) =>
        m.ResetPort();
        m.SetPort(port);
      case Add(delta) => m.AddPort(delta);
      case Reset => m.ResetPort();
    }
    assert ops[..|ops|] == ops;
  }

  // ---------------------------------------------------------------------------------------
  // Runs of updates
  // ---------------------------------------------------------------------------------------

  /** A database's answer to an UPDATE that assigns a column a value and adds to it as well:
      the column after it, from the column before, the value and the delta. */
  type Dialect = (int, Port, Delta) -> int

  /** One UPDATE, as sqlSave asks for it. */
  function Written(column: int, p: Pending, both: Dialect): int
  {
    if p.to.Some? && p.added.Some? then both(column, p.to.value, p.added.value)
    else if p.to.Some? then p.to.value
    else if p.added.Some? then column + p.added.value
    else column
  }

  /** The column after a run of updates, each with the calls made on its builder. */
  function ColumnAfter(column: int, updates: seq<seq<PortOp>>, both: Dialect): int
  {
    if updates == [] then column
    else Written(ColumnAfter(column, updates[..|updates| - 1], both), After(updates[|updates| - 1]), both)
  }

  /** The reference: a uint16 variable on which every call acts at once, a reset undoing the calls
      of its own update. */
  function Act(before: Port, now: Port, op: PortOp): Port
  {
    match op
    case Set(port) => port
    case Add(delta) => Narrow(now + delta)
    case Reset => before
  }

  function VariableIn(before: Port, ops: seq<PortOp>): Port
  {
    if ops == [] then before else Act(before, VariableIn(before, ops[..|ops| - 1]), ops[|ops| - 1])
  }

  function VariableAfter(port: Port, updates: seq<seq<PortOp>>): Port
  {
    if updates == [] then port
    else VariableIn(VariableAfter(port, updates[..|updates| - 1]), updates[|updates| - 1])
  }

  /** A database that adds to the value just assigned. */
  ghost predicate AddsToTheSetValue(both: Dialect)
  {
    forall column: int, port: Port, delta: Delta :: Narrow(both(column, port, delta)) == Narrow(port + delta)
  }

  /** Narrowing forgets multiples of 65536 wherever they arise. */
  lemma {:induction false} NarrowAdds(a: int, b: int, d: int)
    requires Narrow(a) == Narrow(b)
    ensures Narrow(a + d) == Narrow(b + d)
  {
    assert a - b == 0x1_0000 * (a / 0x1_0000 - b / 0x1_0000);
    var k := a / 0x1_0000 - b / 0x1_0000;
    assert a + d == (b + d) + 0x1_0000 * k;
  }

  lemma {:induction false} NarrowCancels(a: int, b: int, d: int)
    ensures Narrow(a + d) == Narrow(b + d) <==> Narrow(a) == Narrow(b)
  {
    if Narrow(a) == Narrow(b) {
      NarrowAdds(a, b, d);
    }
    if Narrow(a + d) == Narrow(b + d) {
      NarrowAdds(a + d, b + d, -d);
    }
  }

  lemma {:induction false} DeltasWrap(column: int, a: Delta, b: Delta)
    ensures Narrow(column + AddDeltas(a, b)) == Narrow(column + a + b)
  {
    var s := a + b + 0x8000;
    assert s == 0x1_0000 * (s / 0x1_0000) + s % 0x1_0000;
    assert AddDeltas(a, b) % 0x1_0000 == (a + b) % 0x1_0000 by {
      assert (s % 0x1_0000 - 0x8000) == a + b - 0x1_0000 * (s / 0x1_0000);
    }
    NarrowAdds(AddDeltas(a, b), a + b, column);
  }

  lemma {:induction false} AddFollows(column: int, p: Pending, delta: Delta, now: Port, both: Dialect)
    requires AddsToTheSetValue(both) && Narrow(Written(column, p, both)) == now
    ensures Narrow(Written(column, Step(p, Add(delta)), both)) == Narrow(now + delta)
  {
    var base, added := if p.to.Some? then p.to.value else column, p.added.GetOr(0);
    assert Narrow(base + added) == now;
    DeltasWrap(base, added, delta);
    NarrowAdds(base + added, now, delta);
  }

  /** What a mutation is about to write reads as the variable's value. */
  lemma {:induction false} MutationFollowsVariable(column: int, ops: seq<PortOp>, both: Dialect)
    requires AddsToTheSetValue(both)
    ensures Narrow(Written(column, After(ops), both)) == VariableIn(Narrow(column), ops)
  {
    if ops != [] {
      var init, op := ops[..|ops| - 1], ops[|ops| - 1];
      MutationFollowsVariable(column, init, both);
      if op.Add? {
        AddFollows(column, After(init), op.delta, VariableIn(Narrow(column), init), both);
      }
    }
  }

  lemma {:induction false} ColumnFollowsVariable(column: int, updates: seq<seq<PortOp>>, both: Dialect)
    requires AddsToTheSetValue(both)
    ensures Narrow(ColumnAfter(column, updates, both)) == VariableAfter(Narrow(column), updates)
  {
    if updates != [] {
      var init := updates[..|updates| - 1];
      ColumnFollowsVariable(column, init, both);
      MutationFollowsVariable(ColumnAfter(column, init, both), updates[|updates| - 1], both);
    }
  }

  lemma {:induction false} OneUpdate(column: int, ops: seq<PortOp>, both: Dialect)
    ensures ColumnAfter(column, [ops], both) == Written(column, After(ops), both)
    ensures VariableAfter(Narrow(column), [ops]) == VariableIn(Narrow(column), ops)
  {
    var updates := [ops];
    assert updates[..0] == [];
  }

  lemma {:induction false} SetThenAdd(before: Port, port: Port, delta: Delta)
    ensures After([Set(port), Add(delta)]) == Pending(Some(port), Some(delta))
    ensures VariableIn(before, [Set(port), Add(delta)]) == Narrow(port + delta)
  {
    var ops := [Set(port), Add(delta)];
    assert ops[..1] == [Set(port)] && ops[..1][..0] == [];
    assert VariableIn(before, ops[..1]) == port;
  }

  /** How many additions end a list of calls. */
  function Trailing(ops: seq<PortOp>): (n: nat)
    ensures n <= |ops|
  {
    if ops == [] || !ops[|ops| - 1].Add? then 0 else Trailing(ops[..|ops| - 1]) + 1
  }

  function DeltasOf(ops: seq<PortOp>): int
  {
    if ops == [] then 0
    else DeltasOf(ops[..|ops| - 1]) + if ops[|ops| - 1].Add? then ops[|ops| - 1].delta else 0
  }

  /** Wrapping around early does not show. */
  lemma {:induction false} WrapAgain(sum: int, d: int)
    ensures Wrap(Wrap(sum) + d) == Wrap(sum + d)
  {
    var k := (sum + 0x8000) / 0x1_0000;
    assert Wrap(sum) + d + 0x8000 == (sum + d + 0x8000) - 0x1_0000 * k;
  }

  lemma {:induction false} DeltasFrom(ops: seq<PortOp>, t: nat)
    requires t < |ops| && ops[|ops| - 1].Add?
    ensures DeltasOf(ops[t..]) == DeltasOf(ops[..|ops| - 1][t..]) + ops[|ops| - 1].delta
  {
    assert ops[t..][..|ops[t..]| - 1] == ops[..|ops| - 1][t..];
  }

  /** A mutation knows the last call that was no addition and the sum of the additions after it,
      wrapped around. It asks for a value and a delta exactly if that call set the value and
      additions follow. */
  lemma {:induction false} PendingIs(ops: seq<PortOp>)
    ensures var t := |ops| - Trailing(ops);
      && After(ops).to == (if t > 0 && ops[t - 1].Set? then Some(ops[t - 1].port) else None)
      && After(ops).added == (if t < |ops| then Some(Wrap(DeltasOf(ops[t..]))) else None)
  {
    if ops != [] && ops[|ops| - 1].Add? {
      var init, op := ops[..|ops| - 1], ops[|ops| - 1];
      PendingIs(init);
      var t := |ops| - Trailing(ops);
      DeltasFrom(ops, t);
      WrapAgain(DeltasOf(init[t..]), op.delta);
    }
  }

  // ---------------------------------------------------------------------------------------
  // Runs that no database can spoil
  // ---------------------------------------------------------------------------------------

  /** The last call of an update that is no addition sets the port. */
  predicate Sets(ops: seq<PortOp>)
  {
    var t := |ops| - Trailing(ops);
    t > 0 && ops[t - 1].Set?
  }

  /** The last update that sets the port does not add to it afterwards, or none sets it. */
  predicate Safe(updates: seq<seq<PortOp>>)
  {
    if updates == [] then true
    else if Sets(updates[|updates| - 1]) then Trailing(updates[|updates| - 1]) == 0
    else Safe(updates[..|updates| - 1])
  }

  /** For all databases, the port read from the column is the variable's. */
  ghost predicate SafeOnAll(column: int, updates: seq<seq<PortOp>>)
  {
    forall both: Dialect :: Narrow(ColumnAfter(column, updates, both)) == VariableAfter(Narrow(column), updates)
  }

  /** Two databases, the one answering 0 and the other 1 where they have a choice. */
  function Answering(x: int): Dialect
  {
    (column, port, delta) => x
  }

  function Adding(): Dialect
  {
    (column, port: Port, delta: Delta) => port + delta
  }

  lemma {:induction false} UpdateWithoutChoice(column: int, ops: seq<PortOp>, both: Dialect)
    requires !(Sets(ops) && Trailing(ops) > 0)
    ensures Narrow(Written(column, After(ops), both)) == VariableIn(Narrow(column), ops)
  {
    PendingIs(ops);
    MutationFollowsVariable(column, ops, Adding());
  }

  lemma {:induction false} SafeRunsFollow(column: int, updates: seq<seq<PortOp>>, both: Dialect)
    requires Safe(updates)
    ensures Narrow(ColumnAfter(column, updates, both)) == VariableAfter(Narrow(column), updates)
  {
    if updates != [] {
      var init, last := updates[..|updates| - 1], updates[|updates| - 1];
      var before := ColumnAfter(column, init, both);
      UpdateWithoutChoice(before, last, both);
      PendingIs(last);
      if Sets(last) {
        SetsTheVariable(Narrow(before), VariableAfter(Narrow(column), init), last);
      } else {
        SafeRunsFollow(column, init, both);
      }
    }
  }

  /** An update that sets the port leaves nothing of what was before. */
  lemma {:induction false} SetsTheVariable(before: Port, before': Port, ops: seq<PortOp>)
    requires Sets(ops)
    ensures VariableIn(before, ops) == VariableIn(before', ops)
  {
    if ops[|ops| - 1].Add? {
      SetsTheVariable(before, before', ops[..|ops| - 1]);
    }
  }

  lemma {:induction false} OnlyAdds(column: int, ops: seq<PortOp>, both: Dialect)
    requires !Sets(ops)
    ensures Written(column, After(ops), both) == column + After(ops).added.GetOr(0)
  {
    PendingIs(ops);
  }

  lemma {:induction false} HasChoice(column: int, ops: seq<PortOp>, x: int)
    requires Sets(ops) && Trailing(ops) > 0
    ensures Written(column, After(ops), Answering(x)) == x
  {
    PendingIs(ops);
  }

  lemma {:induction false} UnsafeRunsPart(column: int, updates: seq<seq<PortOp>>)
    requires !Safe(updates)
    ensures Narrow(ColumnAfter(column, updates, Answering(0))) != Narrow(ColumnAfter(column, updates, Answering(1)))
  {
    var init, last := updates[..|updates| - 1], updates[|updates| - 1];
    var zero, one := ColumnAfter(column, init, Answering(0)), ColumnAfter(column, init, Answering(1));
    if Sets(last) {
      HasChoice(zero, last, 0);
      HasChoice(one, last, 1);
    } else {
      UnsafeRunsPart(column, init);
      OnlyAdds(zero, last, Answering(0));
      OnlyAdds(one, last, Answering(1));
      NarrowCancels(zero, one, After(last).added.GetOr(0));
    }
  }

  /** A run of updates reads back as the uint16 variable whatever the database makes of a value and
      a delta for one column, if and only if its last update that sets the port does not add to it
      afterwards. */
  lemma {:induction false} SafeRuns(column: int, updates: seq<seq<PortOp>>)
    ensures SafeOnAll(column, updates) <==> Safe(updates)
  {
    if Safe(updates) {
      forall both: Dialect
        ensures Narrow(ColumnAfter(column, updates, both)) == VariableAfter(Narrow(column), updates)
      {
        SafeRunsFollow(column, updates, both);
      }
    } else {
      UnsafeRunsPart(column, updates);
    }
  }

  /** SQLite lets the last of several assignments to one column win, and computes it from the
      column as it was. */
  function LastWins(): Dialect
  {
    (column: int, port: Port, delta: Delta) => column + delta
  }

  /** On such a database: the last update that sets the port does not add to it afterwards, or the
      port reads as the value set already before it; or none sets it. */
  predicate SafeOnLastWins(column: int, updates: seq<seq<PortOp>>)
  {
    if updates == [] then true
    else
      var init, last := updates[..|updates| - 1], updates[|updates| - 1];
      if !Sets(last) then SafeOnLastWins(column, init)
      else Trailing(last) == 0 || After(last).to == Some(Narrow(ColumnAfter(column, init, LastWins())))
  }

  lemma {:induction false} VariableOnlyAdds(port: Port, ops: seq<PortOp>)
    requires !Sets(ops)
    ensures VariableIn(port, ops) == Narrow(port + After(ops).added.GetOr(0))
  {
    UpdateWithoutChoice(port, ops, LastWins());
    OnlyAdds(port, ops, LastWins());
  }

  lemma {:induction false} BothPending(ops: seq<PortOp>)
    requires Sets(ops) && Trailing(ops) > 0
    ensures After(ops).to.Some? && After(ops).added.Some?
  {
    PendingIs(ops);
  }

  lemma {:induction false} VariableSetsAndAdds(port: Port, ops: seq<PortOp>)
    requires After(ops).to.Some? && After(ops).added.Some?
    ensures VariableIn(port, ops) == Narrow(After(ops).to.value + After(ops).added.value)
  {
    var both := Adding();
    MutationFollowsVariable(port, ops, both);
    assert Narrow(port) == port;
  }

  /** An update that sets the port and adds to it. */
  lemma {:induction false} ChoiceOfLastWins(column: int, port: Port, ops: seq<PortOp>)
    requires Sets(ops) && Trailing(ops) > 0
    ensures Narrow(Written(column, After(ops), LastWins())) == VariableIn(port, ops) <==>
            After(ops).to == Some(Narrow(column))
  {
    BothPending(ops);
    VariableSetsAndAdds(port, ops);
    var p := After(ops);
    NarrowCancels(column, p.to.value, p.added.value);
  }

  /** An update that only adds. */
  lemma {:induction false} StaysApart(column: int, port: Port, ops: seq<PortOp>)
    requires !Sets(ops)
    ensures Narrow(Written(column, After(ops), LastWins())) == VariableIn(port, ops) <==> Narrow(column) == port
  {
    OnlyAdds(column, ops, LastWins());
    VariableOnlyAdds(port, ops);
    NarrowCancels(column, port, After(ops).added.GetOr(0));
  }

  /** An update that only sets the port. */
  lemma {:induction false} SetsAndNoMore(column: int, port: Port, ops: seq<PortOp>)
    requires Sets(ops) && Trailing(ops) == 0
    ensures Narrow(Written(column, After(ops), LastWins())) == VariableIn(port, ops)
  {
    UpdateWithoutChoice(column, ops, LastWins());
    SetsTheVariable(Narrow(column), port, ops);
  }

  /** There a run of updates reads as the variable if and only if it is safe in that sense. */
  lemma {:induction false} SafeRunsOnLastWins(column: int, updates: seq<seq<PortOp>>)
    ensures Narrow(ColumnAfter(column, updates, LastWins())) == VariableAfter(Narrow(column), updates)
            <==> SafeOnLastWins(column, updates)
  {
    if updates != [] {
      var init, last := updates[..|updates| - 1], updates[|updates| - 1];
      var before, port := ColumnAfter(column, init, LastWins()), VariableAfter(Narrow(column), init);
      if !Sets(last) {
        SafeRunsOnLastWins(column, init);
        StaysApart(before, port, last);
      } else if Trailing(last) == 0 {
        SetsAndNoMore(before, port, last);
      } else {
        ChoiceOfLastWins(before, port, last);
      }
    }
  }

  /** One update of two calls. */
  lemma {:induction false} SetThenAddOnSQLite(column: int, port: Port, delta: Delta)
    ensures var updates := [[Set(port), Add(delta)]];
      var read := Narrow(ColumnAfter(column, updates, LastWins()));
      && !Safe(updates) && read == Narrow(column + delta)
      && (read == VariableAfter(Narrow(column), updates) <==> Narrow(column) == port)
  {
    var ops := [Set(port), Add(delta)];
    OneUpdate(column, ops, LastWins());
    SetThenAdd(Narrow(column), port, delta);
    PendingIs(ops);
    NarrowCancels(column, port, delta);
  }

  /** An instance: 444, where 81 was asked for. */
  lemma {:induction false} SetThenAddGoesWrong()
    ensures var updates := [[Set(80), Add(1)]];
      Narrow(ColumnAfter(443, updates, LastWins())) == 444 && VariableAfter(443, updates) == 81
  {
    SetThenAddOnSQLite(443, 80, 1);
    OneUpdate(443, [Set(80), Add(1)], LastWins());
    SetThenAdd(443, 80, 1);
  }

  // ---------------------------------------------------------------------------------------
  // Additions alone
  // ---------------------------------------------------------------------------------------

  function Adds(deltas: seq<Delta>): seq<PortOp>
  {
    seq(|deltas|, i requires 0 <= i < |deltas| => Add(deltas[i]))
  }

  function Sum(deltas: seq<Delta>): int
  {
    if deltas == [] then 0 else Sum(deltas[..|deltas| - 1]) + deltas[|deltas| - 1]
  }

  function Flat(groups: seq<seq<Delta>>): seq<Delta>
  {
    if groups == [] then [] else Flat(groups[..|groups| - 1]) + groups[|groups| - 1]
  }

  /** One update for each group. */
  function Updates(groups: seq<seq<Delta>>): seq<seq<PortOp>>
  {
    seq(|groups|, i requires 0 <= i < |groups| => Adds(groups[i]))
  }

  lemma {:induction false} SumAppend(a: seq<Delta>, b: seq<Delta>)
    ensures Sum(a + b) == Sum(a) + Sum(b)
  {
    if b == [] {
      assert a + b == a;
    } else {
      assert (a + b)[..|a + b| - 1] == a + b[..|b| - 1];
      SumAppend(a, b[..|b| - 1]);
    }
  }

  function Removed(s: seq<Delta>, k: nat): seq<Delta>
    requires k < |s|
  {
    s[..k] + s[k + 1..]
  }

  lemma {:induction false} SumRemoved(s: seq<Delta>, k: nat)
    requires k < |s|
    ensures Sum(s) == Sum(Removed(s, k)) + s[k]
    ensures multiset(Removed(s, k)) == multiset(s) - multiset{s[k]}
  {
    var x := s[k];
    assert s == s[..k] + [x] + s[k + 1..];
    SumAppend(s[..k] + [x], s[k + 1..]);
    SumAppend(s[..k], [x]);
    SumAppend(s[..k], s[k + 1..]);
    assert [x][..0] == [];
  }

  /** The order of the summands does not matter. */
  lemma {:induction false} SumOfSame(a: seq<Delta>, b: seq<Delta>)
    requires multiset(a) == multiset(b)
    ensures Sum(a) == Sum(b)
  {
    if a == [] {
      assert |multiset(b)| == 0;
    } else {
      var last := |a| - 1;
      assert a[last] in multiset(b);
      var k :| 0 <= k < |b| && b[k] == a[last];
      SumRemoved(a, last);
      SumRemoved(b, k);
      SumOfSame(Removed(a, last), Removed(b, k));
    }
  }

  lemma {:induction false} AddsLast(deltas: seq<Delta>)
    requires deltas != []
    ensures After(Adds(deltas)) == Step(After(Adds(deltas[..|deltas| - 1])), Add(deltas[|deltas| - 1]))
  {
    var ops := Adds(deltas);
    assert ops[..|ops| - 1] == Adds(deltas[..|deltas| - 1]);
  }

  /** An update that only adds. */
  lemma {:induction false} AddsWrite(column: int, deltas: seq<Delta>)
    ensures var p := After(Adds(deltas));
      p.to == None && Narrow(column + p.added.GetOr(0)) == Narrow(column + Sum(deltas))
  {
    if deltas != [] {
      var init, d := deltas[..|deltas| - 1], deltas[|deltas| - 1];
      AddsWrite(column, init);
      AddsLast(deltas);
      var added := After(Adds(init)).added.GetOr(0);
      DeltasWrap(column, added, d);
      NarrowAdds(column + added, column + Sum(init), d);
    }
  }

  /** Additions, however they are spread over updates, make the port read from the column the
      port at the start plus their sum, wrapped around. */
  lemma {:induction false} AdditionsWrapAround(column: int, groups: seq<seq<Delta>>, both: Dialect)
    ensures Narrow(ColumnAfter(column, Updates(groups), both)) == Narrow(column + Sum(Flat(groups)))
  {
    if groups != [] {
      var init, last := groups[..|groups| - 1], groups[|groups| - 1];
      AdditionsWrapAround(column, init, both);
      var updates := Updates(groups);
      assert updates[..|updates| - 1] == Updates(init);
      var before := ColumnAfter(column, Updates(init), both);
      AddsWrite(before, last);
      SumAppend(Flat(init), last);
      NarrowAdds(before, column + Sum(Flat(init)), Sum(last));
    }
  }

  /** The same additions in any order and any grouping, on columns that read the same, end in
      columns that read the same. */
  lemma {:induction false} AnyOrderAnyGrouping(column: int, groups: seq<seq<Delta>>, column': int,
                                               groups': seq<seq<Delta>>, both: Dialect)
    requires Narrow(column) == Narrow(column') && multiset(Flat(groups)) == multiset(Flat(groups'))
    ensures Narrow(ColumnAfter(column, Updates(groups), both)) == Narrow(ColumnAfter(column', Updates(groups'), both))
  {
    var s := Sum(Flat(groups));
    SumOfSame(Flat(groups), Flat(groups'));
    NarrowAdds(column, column', s);
    AdditionsWrapAround(column, groups, both);
    AdditionsWrapAround(column', groups', both);
  }

  /** The columns themselves may differ. Two additions in one update wrap around before the
      database sees them, in two updates they do not: the columns agree exactly if the sum is a
      delta. */
  lemma {:induction false} GroupingShowsInTheColumn(column: int, a: Delta, b: Delta, both: Dialect)
    ensures ColumnAfter(column, Updates([[a], [b]]), both) == ColumnAfter(column, Updates([[a, b]]), both) <==>
            -0x8000 <= a + b < 0x8000
  {
    AddsLast([a]);
    AddsLast([b]);
    AddsLast([a, b]);
    assert [a, b][..1] == [a] && Adds([a][..0]) == [] && Adds([b][..0]) == [];
    OneUpdate(column, Adds([a, b]), both);
    OneUpdate(column, Adds([a]), both);
    var two := Updates([[a], [b]]);
    assert two[..1] == [Adds([a])] && Updates([[a, b]]) == [Adds([a, b])];
  }

  /** Decoding is the identity exactly on the values of a port, so on all that create writes and
      on no column that additions have led out of the range. */
  lemma {:induction false} ReadsAsStored(column: int)
    ensures Narrow(column) == column <==> 0 <= column < 0x1_0000
    ensures forall k: int :: Narrow(column + 0x1_0000 * k) == Narrow(column)
  {
    forall k: int ensures Narrow(column + 0x1_0000 * k) == Narrow(column) {
      assert (column + 0x1_0000 * k) % 0x1_0000 == column % 0x1_0000;
    }
  }
}
