// Updates of list edges: what the calls on a builder leave in its mutation, the edge specs that
// sqlSave makes of that, and what the specs do to the children of a row.
module EdgeUpdate {
  import opened Wrappers
  import opened EagerLoad

  // ---------------------------------------------------------------------------------------
  // The mutation
  // ---------------------------------------------------------------------------------------

  datatype EdgeOp = AddIDs(ids: seq<Key>) | RemoveIDs(ids: seq<Key>) | Clear | Reset

  /** What a mutation holds for one edge. */
  datatype Change = Change(added: set<Key>, removed: set<Key>, cleared: bool)

  const NO_CHANGE := Change({}, {}, false)

  function SetOf(ids: seq<Key>): set<Key>
  {
    set id <- ids
  }

  function Step(c: Change, op: EdgeOp): Change
  {
    match op
    case AddIDs(ids) => c.(added := c.added + SetOf(ids))
    case RemoveIDs(ids) => c.(added := c.added - SetOf(ids), removed := c.removed + SetOf(ids))
    case Clear => c.(cleared := true)
    case Reset => NO_CHANGE
  }

  function After(ops: seq<EdgeOp>): Change
  {
    if ops == [] then NO_CHANGE else Step(After(ops[..|ops| - 1]), ops[|ops| - 1])
  }

  /** The fields of a TailClientMutation that belong to one list edge. */
  class EdgeChange {
    var added: set<Key>
    var removed: set<Key>
    var cleared: bool

    constructor ()
      ensures State() == NO_CHANGE
    {
      added, removed, cleared := {}, {}, false;
    }

    function State(): Change
      reads this
    {
      Change(added, removed, cleared)
    }

    method AddIDs(ids: seq<Key>)
      modifies this
      ensures State() == Step(old(State()), EdgeOp.AddIDs(ids))
    {
      for i := 0 to |ids|
        invariant added == old(added) + SetOf(ids[..i]) && removed == old(removed) && cleared == old(cleared)
      {
        added := added + {ids[i]};
        assert ids[..i + 1] == ids[..i] + [ids[i]];
      }
      assert ids[..|ids|] == ids;
    }

    method RemoveIDs(ids: seq<Key>)
      modifies this
      ensures State() == Step(old(State()), EdgeOp.RemoveIDs(ids))
    {
      for i := 0 to |ids|
        invariant added == old(added) - SetOf(ids[..i]) && removed == old(removed) + SetOf(ids[..i])
        invariant cleared == old(cleared)
      {
        added := added - {ids[i]};
        removed := removed + {ids[i]};
        assert ids[..i + 1] == ids[..i] + [ids[i]];
      }
      assert ids[..|ids|] == ids;
    }

    method Clear()
      modifies this
      ensures State() == Step(old(State()), EdgeOp.Clear)
    {
      cleared := true;
    }

    method Reset()
      modifies this
      ensures State() == Step(old(State()), EdgeOp.Reset)
    {
      added, removed, cleared := {}, {}, false;
    }
  }

  method CallAll(c: EdgeChange, ops: seq<EdgeOp>)
    requires c.State() == NO_CHANGE
    modifies c
    ensures c.State() == After(ops)
  {
    for i := 0 to |ops|
      invariant c.State() == After(ops[..i])
    {
      assert ops[..i + 1][..i] == ops[..i];
      match ops[i]
      case AddIDs(ids) => c.AddIDs(ids);
      case RemoveIDs(ids) => c.RemoveIDs(ids);
      case Clear => c.Clear();
      case Reset => c.Reset();
    }
    assert ops[..|ops|] == ops;
  }

  // ---------------------------------------------------------------------------------------
  // Edge specs and their effect
  // ---------------------------------------------------------------------------------------

  // The list edges, by their places in the edges struct.
  const DIAGNOSTIC_RUNS := 0
  const ROUTES := 1
  const TRANSFER_JOBS := 2

  /** One edge to clear or to add to. A spec to clear that names no nodes clears all of them. */
  datatype EdgeSpec = EdgeSpec(edge: nat, nodes: seq<Key>)

  datatype EdgeSpecs = EdgeSpecs(clear: seq<EdgeSpec>, add: seq<EdgeSpec>)

  // The children of a row, for each of its list edges.
  type Children = seq<set<Key>>

  function ClearedBy(children: set<Key>, spec: EdgeSpec): set<Key>
  {
    if spec.nodes == [] then {} else children - SetOf(spec.nodes)
  }

  ghost predicate EdgesBelow(specs: seq<EdgeSpec>, n: nat)
  {
    forall i :: 0 <= i < |specs| ==> specs[i].edge < n
  }

  function ClearAll(children: Children, specs: seq<EdgeSpec>): (r: Children)
    requires EdgesBelow(specs, |children|)
    ensures |r| == |children|
  {
    if specs == [] then children
    else
      var before, spec := ClearAll(children, specs[..|specs| - 1]), specs[|specs| - 1];
      before[spec.edge := ClearedBy(before[spec.edge], spec)]
  }

  function AddAll(children: Children, specs: seq<EdgeSpec>): (r: Children)
    requires EdgesBelow(specs, |children|)
    ensures |r| == |children|
  {
    if specs == [] then children
    else
      var before, spec := AddAll(children, specs[..|specs| - 1]), specs[|specs| - 1];
      before[spec.edge := before[spec.edge] + SetOf(spec.nodes)]
  }

  /** What an update does with specs: all clears, then all adds. */
  function Apply(children: Children, specs: EdgeSpecs): Children
    requires EdgesBelow(specs.clear, |children|) && EdgesBelow(specs.add, |children|)
  {
    AddAll(ClearAll(children, specs.clear), specs.add)
  }

  /** What a change is to make of the children. */
  function Changed(children: set<Key>, c: Change): set<Key>
  {
    (if c.cleared then {} else children - c.removed) + c.added
  }

  /** What is left of the children of edge e once the clears of the first n edges are done. */
  function Kept(children: set<Key>, changes: seq<Change>, e: nat, n: nat): set<Key>
    requires e < |changes|
  {
    if e >= n then children else if changes[e].cleared then {} else children - changes[e].removed
  }

  /** The same, with what the adds of the first n edges bring. */
  function Grown(children: set<Key>, changes: seq<Change>, e: nat, n: nat): set<Key>
    requires e < |changes|
  {
    if e >= n then children else children + changes[e].added
  }

  /** The specs clear what the changes of the first n edges say, and nothing else. */
  ghost predicate Clears(specs: seq<EdgeSpec>, changes: seq<Change>, n: nat)
  {
    && EdgesBelow(specs, |changes|)
    && forall children: Children, e :: |children| == |changes| && 0 <= e < |children| ==>
         ClearAll(children, specs)[e] == Kept(children[e], changes, e, n)
  }

  ghost predicate Adds(specs: seq<EdgeSpec>, changes: seq<Change>, n: nat)
  {
    && EdgesBelow(specs, |changes|)
    && forall children: Children, e :: |children| == |changes| && 0 <= e < |children| ==>
         AddAll(children, specs)[e] == Grown(children[e], changes, e, n)
  }

  /** RemovedDiagnosticRunsIDs and its siblings: the keys of a map in whatever order. */
  method KeysOf(keys: set<Key>) returns (ids: seq<Key>)
    ensures SetOf(ids) == keys && |ids| == |keys|
  {
    ids := [];
    var rest := keys;
    while rest != {}
      invariant rest <= keys && SetOf(ids) == keys - rest && |ids| == |keys| - |rest|
    {
      var id :| id in rest;
      assert SetOf(ids + [id]) == SetOf(ids) + {id};
      ids := ids + [id];
      rest := rest - {id};
    }
  }

  /** A spec without nodes must not stand for "nothing removed": it would clear the edge. */
  lemma {:induction false} AppendClear(specs: seq<EdgeSpec>, spec: EdgeSpec, changes: seq<Change>)
    requires spec.edge < |changes| && Clears(specs, changes, spec.edge)
    requires var c := changes[spec.edge];
      if c.cleared then spec.nodes == [] else spec.nodes != [] && SetOf(spec.nodes) == c.removed
    ensures Clears(specs + [spec], changes, spec.edge + 1)
  {
    var now := specs + [spec];
    forall children: Children, e | |children| == |changes| && 0 <= e < |children|
      ensures ClearAll(children, now)[e] == Kept(children[e], changes, e, spec.edge + 1)
    {
      ClearLast(children, specs, spec, e);
    }
  }

  lemma {:induction false} ClearLast(children: Children, specs: seq<EdgeSpec>, spec: EdgeSpec, e: nat)
    requires spec.edge < |children| && EdgesBelow(specs, |children|) && e < |children|
    ensures EdgesBelow(specs + [spec], |children|)
    ensures var before := ClearAll(children, specs)[e];
      ClearAll(children, specs + [spec])[e] == if e == spec.edge then ClearedBy(before, spec) else before
  {
    assert (specs + [spec])[..|specs|] == specs;
  }

  lemma {:induction false} AppendAdd(specs: seq<EdgeSpec>, spec: EdgeSpec, changes: seq<Change>)
    requires spec.edge < |changes| && Adds(specs, changes, spec.edge) && SetOf(spec.nodes) == changes[spec.edge].added
    ensures Adds(specs + [spec], changes, spec.edge + 1)
  {
    var now := specs + [spec];
    forall children: Children, e | |children| == |changes| && 0 <= e < |children|
      ensures AddAll(children, now)[e] == Grown(children[e], changes, e, spec.edge + 1)
    {
      assert now[..|now| - 1] == specs;
      assert AddAll(children, specs)[e] == Grown(children[e], changes, e, spec.edge);
    }
  }

  lemma {:induction false} NoClear(specs: seq<EdgeSpec>, changes: seq<Change>, e: nat)
    requires e < |changes| && Clears(specs, changes, e) && !changes[e].cleared && changes[e].removed == {}
    ensures Clears(specs, changes, e + 1)
  {
    forall children: Children, x | |children| == |changes| && 0 <= x < |children|
      ensures ClearAll(children, specs)[x] == Kept(children[x], changes, x, e + 1)
    {
      assert ClearAll(children, specs)[x] == Kept(children[x], changes, x, e);
    }
  }

  lemma {:induction false} NoAdd(specs: seq<EdgeSpec>, changes: seq<Change>, e: nat)
    requires e < |changes| && Adds(specs, changes, e) && changes[e].added == {}
    ensures Adds(specs, changes, e + 1)
  {
    forall children: Children, x | |children| == |changes| && 0 <= x < |children|
      ensures AddAll(children, specs)[x] == Grown(children[x], changes, x, e + 1)
    {
      assert AddAll(children, specs)[x] == Grown(children[x], changes, x, e);
    }
  }

  /** The three blocks of sqlSave for one edge. */
  method AppendEdge(specs: EdgeSpecs, e: nat, c: EdgeChange, ghost changes: seq<Change>) returns (specs': EdgeSpecs)
    requires e < |changes| && changes[e] == c.State() && Clears(specs.clear, changes, e) && Adds(specs.add, changes, e)
    ensures Clears(specs'.clear, changes, e + 1) && Adds(specs'.add, changes, e + 1)
    ensures specs'.add == [] <==> specs.add == [] && c.added == {}
  {
    specs' := specs;
    if c.cleared {
      AppendClear(specs.clear, EdgeSpec(e, []), changes);
      specs' := specs'.(clear := specs'.clear + [EdgeSpec(e, [])]);
    }
    var removed := KeysOf(c.removed);
    if |removed| > 0 && !c.cleared {
      AppendClear(specs.clear, EdgeSpec(e, removed), changes);
      specs' := specs'.(clear := specs'.clear + [EdgeSpec(e, removed)]);
    }
    if !c.cleared && c.removed == {} {
      NoClear(specs.clear, changes, e);
    }
    var added := KeysOf(c.added);
    if |added| > 0 {
      AppendAdd(specs.add, EdgeSpec(e, added), changes);
      specs' := specs'.(add := specs'.add + [EdgeSpec(e, added)]);
    } else {
      NoAdd(specs.add, changes, e);
    }
  }

  ghost predicate NothingAdded(changes: seq<Change>)
  {
    forall e :: 0 <= e < |changes| ==> changes[e].added == {}
  }

  class TailClientMutation {
    const diagnosticRuns: EdgeChange
    const routes: EdgeChange
    const transferJobs: EdgeChange
    const id: Option<Key>
    var done: bool

    constructor (id: Option<Key>)
      ensures this.id == id && !done
      ensures diagnosticRuns.State() == routes.State() == transferJobs.State() == NO_CHANGE
      ensures fresh(diagnosticRuns) && fresh(routes) && fresh(transferJobs)
      ensures diagnosticRuns != routes && routes != transferJobs && transferJobs != diagnosticRuns
    {
      diagnosticRuns := new EdgeChange();
      routes := new EdgeChange();
      transferJobs := new EdgeChange();
      this.id, done := id, false;
    }

    ghost function Changes(): seq<Change>
      reads diagnosticRuns, routes, transferJobs
    {
      [diagnosticRuns.State(), routes.State(), transferJobs.State()]
    }

    /** The edge part of both sqlSave functions. */
    method EdgePart() returns (specs: EdgeSpecs)
      ensures Clears(specs.clear, Changes(), 3) && Adds(specs.add, Changes(), 3)
      ensures specs.add == [] <==> NothingAdded(Changes())
    {
      specs := EdgeSpecs([], []);
      specs := AppendEdge(specs, DIAGNOSTIC_RUNS, diagnosticRuns, Changes());
      specs := AppendEdge(specs, ROUTES, routes, Changes());
      specs := AppendEdge(specs, TRANSFER_JOBS, transferJobs, Changes());
    }
  }

  /** Specs that say what the changes say set every edge to what its change makes of it: none if
      cleared and otherwise without the removed, and with the added in either case. No edge
      depends on another, and the order in which ids were listed does not matter. */
  lemma {:induction false} SpecsMeanChanges(specs: EdgeSpecs, changes: seq<Change>, children: Children)
    requires |children| == |changes| && Clears(specs.clear, changes, |changes|) && Adds(specs.add, changes, |changes|)
    ensures |Apply(children, specs)| == |children|
    ensures forall e :: 0 <= e < |children| ==> Apply(children, specs)[e] == Changed(children[e], changes[e])
  {
    var kept := ClearAll(children, specs.clear);
    forall e | 0 <= e < |children| ensures Apply(children, specs)[e] == Changed(children[e], changes[e]) {
      assert kept[e] == Kept(children[e], changes, e, |changes|);
      assert AddAll(kept, specs.add)[e] == Grown(kept[e], changes, e, |changes|);
    }
  }

  // ---------------------------------------------------------------------------------------
  // The two builders
  // ---------------------------------------------------------------------------------------

  datatype SaveError = CheckFailed | MissingID | InvalidField(column: Column) | NotFound | DatabaseFailed(code: nat)

  // What the database answers to additions for several rows at once.
  const SEVERAL_PARENTS := 0

  /** The children of the rows that an update is about. An update fails as a whole or applies the
      specs to every row; children can be added to one row only. */
  class Database {
    const failure: Option<nat>
    var rows: seq<Children>

    constructor (failure: Option<nat>, rows: seq<Children>)
      ensures this.failure == failure && this.rows == rows
    {
      this.failure, this.rows := failure, rows;
    }

    function Answer(specs: EdgeSpecs): Result<nat, nat>
      reads this
    {
      if failure.Some? then Err(failure.value)
      else if |rows| > 1 && specs.add != [] then Err(SEVERAL_PARENTS)
      else Ok(|rows|)
    }

    method Update(specs: EdgeSpecs) returns (r: Result<nat, nat>)
      requires forall i :: 0 <= i < |rows| ==> EdgesBelow(specs.clear, |rows[i]|) && EdgesBelow(specs.add, |rows[i]|)
      modifies this`rows
      ensures r == old(Answer(specs)) && |rows| == |old(rows)|
      ensures forall i :: 0 <= i < |rows| ==> rows[i] == if r.Ok? then Apply(old(rows)[i], specs) else old(rows)[i]
    {
      r := Answer(specs);
      if r.Ok? {
        rows := seq(|rows|, i requires 0 <= i < |rows| &&
                               EdgesBelow(specs.clear, |rows[i]|) && EdgesBelow(specs.add, |rows[i]|) reads this =>
                             Apply(rows[i], specs));
      }
    }
  }

  ghost predicate AllChanged(now: Children, before: Children, changes: seq<Change>)
  {
    |now| == |before| == |changes| && forall e :: 0 <= e < |now| ==> now[e] == Changed(before[e], changes[e])
  }

  /** What an update makes of all rows. */
  ghost predicate RowsChanged(now: seq<Children>, before: seq<Children>, changes: seq<Change>)
  {
    |now| == |before| && forall i :: 0 <= i < |now| ==> AllChanged(now[i], before[i], changes)
  }

  /** The same, edge by edge and by name. */
  ghost predicate ChangedByName(now: seq<Children>, before: seq<Children>, diagnosticRuns: Change, routes: Change,
                                transferJobs: Change)
    requires |now| == |before| && ThreeEdges(now) && ThreeEdges(before)
  {
    forall i :: 0 <= i < |now| ==>
      && now[i][DIAGNOSTIC_RUNS] == Changed(before[i][DIAGNOSTIC_RUNS], diagnosticRuns)
      && now[i][ROUTES] == Changed(before[i][ROUTES], routes)
      && now[i][TRANSFER_JOBS] == Changed(before[i][TRANSFER_JOBS], transferJobs)
  }

  predicate ThreeEdges(rows: seq<Children>)
  {
    forall i :: 0 <= i < |rows| ==> |rows[i]| == 3
  }

  lemma {:induction false} EdgesByName(now: seq<Children>, before: seq<Children>, m: TailClientMutation)
    requires RowsChanged(now, before, m.Changes()) && ThreeEdges(before)
    ensures ThreeEdges(now)
    ensures ChangedByName(now, before, m.diagnosticRuns.State(), m.routes.State(), m.transferJobs.State())
  {
    forall i | 0 <= i < |now|
      ensures |now[i]| == 3 && now[i][DIAGNOSTIC_RUNS] == Changed(before[i][DIAGNOSTIC_RUNS], m.diagnosticRuns.State())
      ensures now[i][ROUTES] == Changed(before[i][ROUTES], m.routes.State())
      ensures now[i][TRANSFER_JOBS] == Changed(before[i][TRANSFER_JOBS], m.transferJobs.State())
    {
      assert AllChanged(now[i], before[i], m.Changes());
    }
  }

  /** The common end of both sqlSave functions. */
  method UpdateEdges(m: TailClientMutation, db: Database) returns (r: Result<nat, nat>)
    requires ThreeEdges(db.rows)
    modifies db`rows
    ensures r == if db.failure.Some? then Err(db.failure.value)
                 else if |old(db.rows)| > 1 && !NothingAdded(m.Changes()) then Err(SEVERAL_PARENTS)
                 else Ok(|old(db.rows)|)
    ensures if r.Ok? then RowsChanged(db.rows, old(db.rows), m.Changes()) else db.rows == old(db.rows)
    ensures |db.rows| == |old(db.rows)| && ThreeEdges(db.rows)
    ensures r.Ok? ==>
      ChangedByName(db.rows, old(db.rows), m.diagnosticRuns.State(), m.routes.State(), m.transferJobs.State())
  {
    var specs := m.EdgePart();
    ghost var before := db.rows;
    r := db.Update(specs);
    if r.Ok? {
      forall i | 0 <= i < |before| ensures AllChanged(db.rows[i], before[i], m.Changes()) {
        SpecsMeanChanges(specs, m.Changes(), before[i]);
      }
      EdgesByName(db.rows, before, m);
    }
  }

  /** TailClientUpdate.sqlSave, for all rows that match. */
  method SqlSaveMany(m: TailClientMutation, checks: bool, db: Database) returns (r: Result<nat, SaveError>)
    requires ThreeEdges(db.rows)
    modifies m`done, db`rows
    ensures r == if !checks then Err(CheckFailed)
                 else if db.failure.Some? then Err(DatabaseFailed(db.failure.value))
                 else if |old(db.rows)| > 1 && !NothingAdded(m.Changes()) then Err(DatabaseFailed(SEVERAL_PARENTS))
                 else Ok(|old(db.rows)|)
    ensures if r.Ok? then RowsChanged(db.rows, old(db.rows), old(m.Changes())) else db.rows == old(db.rows)
    ensures |db.rows| == |old(db.rows)| && ThreeEdges(db.rows)
    ensures r.Ok? ==>
      ChangedByName(db.rows, old(db.rows), m.diagnosticRuns.State(), m.routes.State(), m.transferJobs.State())
    ensures m.done == (r.Ok? || old(m.done))
  {
    if !checks {
      return Err(CheckFailed);
    }
    var n := UpdateEdges(m, db);
    if n.Err? {
      return Err(DatabaseFailed(n.error));
    }
    m.done := true;
    r := Ok(n.value);
  }

  /** The first field that is no column of the table. */
  function FirstInvalid(fields: seq<Column>, valid: Column -> bool): Option<Column>
  {
    if fields == [] then None else if !valid(fields[0]) then Some(fields[0]) else FirstInvalid(fields[1..], valid)
  }

  /** It is found exactly if there is one, and none before it is invalid. */
  lemma {:induction false} FirstInvalidIs(fields: seq<Column>, valid: Column -> bool)
    ensures FirstInvalid(fields, valid).None? <==> forall f <- fields :: valid(f)
    ensures FirstInvalid(fields, valid).Some? ==>
      exists p :: 0 <= p < |fields| && FirstInvalid(fields, valid) == Some(fields[p]) && !valid(fields[p]) &&
        forall q :: 0 <= q < p ==> valid(fields[q])
  {
    if fields != [] && valid(fields[0]) {
      FirstInvalidIs(fields[1..], valid);
      if FirstInvalid(fields, valid).Some? {
        var p :| 0 <= p < |fields[1..]| && FirstInvalid(fields[1..], valid) == Some(fields[1..][p]) &&
          !valid(fields[1..][p]) && forall q :: 0 <= q < p ==> valid(fields[1..][q]);
        assert fields[p + 1] == fields[1..][p];
        assert forall q :: 1 <= q < p + 1 ==> fields[q] == fields[1..][q - 1];
      } else {
        assert forall f <- fields :: f == fields[0] || f in fields[1..];
      }
    }
  }

  /** The columns that an update of one row reads back. */
  method ColumnsOfOne(table: seq<Column>, fields: seq<Column>, valid: Column -> bool)
      returns (r: Result<seq<Column>, SaveError>)
    ensures FirstInvalid(fields, valid).Some? ==> r == Err(InvalidField(FirstInvalid(fields, valid).value))
    ensures FirstInvalid(fields, valid).None? ==> r == Ok(ColumnsOf(table, fields, None))
  {
    if |fields| == 0 {
      return Ok(table);
    }
    var columns := [ID];
    for i := 0 to |fields|
      invariant columns == [ID] + Without(fields[..i], ID)
      invariant FirstInvalid(fields, valid) == FirstInvalid(fields[i..], valid)
    {
      if !valid(fields[i]) {
        return Err(InvalidField(fields[i]));
      }
      assert fields[..i + 1][..i] == fields[..i];
      if fields[i] != ID {
        columns := columns + [fields[i]];
      }
    }
    assert fields[..|fields|] == fields;
    r := Ok(columns);
  }

  /** TailClientUpdateOne.sqlSave: further ways to fail, all of them before anything is written,
      and otherwise the same effect on the edges. */
  method SqlSaveOne(m: TailClientMutation, checks: bool, table: seq<Column>, fields: seq<Column>,
                    valid: Column -> bool, db: Database)
      returns (r: Result<seq<Column>, SaveError>)
    requires ThreeEdges(db.rows) && |db.rows| <= 1
    modifies m`done, db`rows
    ensures r == if !checks then Err(CheckFailed)
                 else if m.id.None? then Err(MissingID)
                 else if FirstInvalid(fields, valid).Some? then Err(InvalidField(FirstInvalid(fields, valid).value))
                 else if db.failure.Some? then Err(DatabaseFailed(db.failure.value))
                 else if old(db.rows) == [] then Err(SaveError.NotFound)
                 else Ok(ColumnsOf(table, fields, None))
    ensures if r.Ok? then RowsChanged(db.rows, old(db.rows), old(m.Changes())) else db.rows == old(db.rows)
    ensures |db.rows| == |old(db.rows)| && ThreeEdges(db.rows)
    ensures r.Ok? ==>
      ChangedByName(db.rows, old(db.rows), m.diagnosticRuns.State(), m.routes.State(), m.transferJobs.State())
    ensures m.done == (r.Ok? || old(m.done))
  {
    if !checks {
      return Err(CheckFailed);
    }
    if m.id.None? {
      return Err(MissingID);
    }
    var columns := ColumnsOfOne(table, fields, valid);
    if columns.Err? {
      return Err(columns.error);
    }
    var n := UpdateEdges(m, db);
    if n.Err? {
      return Err(DatabaseFailed(n.error));
    }
    if n.value == 0 {
      return Err(SaveError.NotFound);
    }
    m.done := true;
    r := Ok(columns.value);
  }

  // ---------------------------------------------------------------------------------------
  // Calls and their sequence
  // ---------------------------------------------------------------------------------------

  /** What the calls say when each takes effect on the children at once, a reset undoing them. */
  function AtOnce(children: set<Key>, ops: seq<EdgeOp>): set<Key>
  {
    if ops == [] then children
    else
      var before, op := AtOnce(children, ops[..|ops| - 1]), ops[|ops| - 1];
      match op
      case AddIDs(ids) => before + SetOf(ids)
      case RemoveIDs(ids) => before - SetOf(ids)
      case Clear => {}
      case Reset => children
  }

  /** Some call after place i is about the id. */
  predicate TouchedAfter(ops: seq<EdgeOp>, i: nat, id: Key)
  {
    exists k :: i < k < |ops| && Touches(ops[k], id)
  }

  predicate Touches(op: EdgeOp, id: Key)
  {
    op.Reset? || (op.AddIDs? && id in op.ids) || (op.RemoveIDs? && id in op.ids)
  }

  /** The last call about the id adds it, and the edge is cleared later. */
  predicate AddedThenCleared(ops: seq<EdgeOp>, id: Key)
  {
    exists i, k :: 0 <= i < k < |ops| &&
      ops[i].AddIDs? && id in ops[i].ids && !TouchedAfter(ops, i, id) && ops[k].Clear?
  }

  /** The ids that are pending as added although a later clear was to take them away. */
  function Stale(ops: seq<EdgeOp>): set<Key>
  {
    if ops == [] then {}
    else
      var init, op := ops[..|ops| - 1], ops[|ops| - 1];
      match op
      case AddIDs(ids) => Stale(init) - SetOf(ids)
      case RemoveIDs(ids) => Stale(init) - SetOf(ids)
      case Clear => After(init).added
      case Reset => {}
  }

  lemma {:induction false} SavedIsAtOnceAndStale(ops: seq<EdgeOp>, children: set<Key>)
    ensures Changed(children, After(ops)) == AtOnce(children, ops) + Stale(ops)
    ensures AtOnce(children, ops) !! Stale(ops)
  {
    if ops != [] {
      SavedIsAtOnceAndStale(ops[..|ops| - 1], children);
    }
  }

  /** An id is pending as added exactly if the last call about it adds it. */
  lemma {:induction false} AddedIs(ops: seq<EdgeOp>, id: Key)
    ensures id in After(ops).added <==>
      exists i :: 0 <= i < |ops| && ops[i].AddIDs? && id in ops[i].ids && !TouchedAfter(ops, i, id)
  {
    if ops != [] {
      var init, last := ops[..|ops| - 1], ops[|ops| - 1];
      AddedIs(init, id);
      if last.AddIDs? && id in last.ids {
        assert !TouchedAfter(ops, |ops| - 1, id);
      } else if Touches(last, id) {
        assert forall i :: 0 <= i < |init| ==> TouchedAfter(ops, i, id);
      } else {
        forall i | 0 <= i < |init| ensures TouchedAfter(ops, i, id) <==> TouchedAfter(init, i, id) {
          StillTouched(ops, i, id);
        }
      }
    }
  }

  lemma {:induction false} StillTouched(ops: seq<EdgeOp>, i: nat, id: Key)
    requires ops != [] && i < |ops| && !Touches(ops[|ops| - 1], id)
    ensures TouchedAfter(ops, i, id) <==> TouchedAfter(ops[..|ops| - 1], i, id)
  {
    if TouchedAfter(ops, i, id) {
      var k :| i < k < |ops| && Touches(ops[k], id);
      assert Touches(ops[..|ops| - 1][k], id);
    }
  }

  lemma {:induction false} StaleIs(ops: seq<EdgeOp>, id: Key)
    ensures id in Stale(ops) <==> AddedThenCleared(ops, id)
  {
    if ops != [] {
      var init, last := ops[..|ops| - 1], ops[|ops| - 1];
      StaleIs(init, id);
      if Touches(last, id) {
        assert forall i :: 0 <= i < |init| ==> TouchedAfter(ops, i, id);
      } else {
        forall i | 0 <= i < |init| ensures TouchedAfter(ops, i, id) <==> TouchedAfter(init, i, id) {
          StillTouched(ops, i, id);
        }
        if last.Clear? {
          AddedIs(init, id);
        }
      }
    }
  }

  /** An instance: a child is added, the edge is cleared, and the child is saved. */
  lemma {:induction false} ClearedChildIsSaved(x: Key)
    ensures var ops := [AddIDs([x]), Clear]; Changed({}, After(ops)) == {x} && AtOnce({}, ops) == {}
  {
    var ops := [AddIDs([x]), Clear];
    var first := ops[..1];
    assert first == [AddIDs([x])] && first[..0] == [];
    assert AtOnce({}, ops) == {};
    assert After(first) == Change({x}, {}, false);
  }

  /** What an update saves is what its calls say in sequence, if and only if no id was added, then
      cleared over, and not mentioned again: clearing an edge does not take back additions made
      before on the same builder. */
  lemma {:induction false} SavedIsAtOnce(ops: seq<EdgeOp>, children: set<Key>)
    ensures Changed(children, After(ops)) == AtOnce(children, ops) <==> forall id :: !AddedThenCleared(ops, id)
  {
    SavedIsAtOnceAndStale(ops, children);
    forall id: Key ensures id in Stale(ops) <==> AddedThenCleared(ops, id) {
      StaleIs(ops, id);
    }
    if Changed(children, After(ops)) == AtOnce(children, ops) {
      assert forall id :: id in Stale(ops) ==> id in AtOnce(children, ops);
    }
  }
}
