// sqlAll of TailServerQuery: decode the rows, remember which edges were asked for, load those,
// and the accessors that tell an edge not loaded from one not found.
module ServerQuery {
  import opened Wrappers
  import opened EagerLoad
  import opened JoinTheorems

  // tail_servers has twelve columns; the loaders use the first two.
  const TABLE: seq<Column> := seq(12, i => i)
  const USER_ID: Column := 1

  // The list edges, by their places in the edges struct.
  const MAPPINGS := 1
  const ALLOWED_CLIENTS := 2
  const EXIT_RULES := 3
  const TRANSFER_SHARES := 4

  datatype EdgeError = NotFound | NotLoaded

  // ---------------------------------------------------------------------------------------
  // Accessors
  // ---------------------------------------------------------------------------------------

  function OwnerOrErr(n: Node): Result<Neighbor, EdgeError>
    requires |n.loadedTypes| == 5
    reads n
  {
    if n.owner.Some? then Ok(n.owner.value) else if n.loadedTypes[0] then Err(NotFound) else Err(NotLoaded)
  }

  function ListOf(n: Node, e: nat): seq<Neighbor>
    reads n
  {
    if e in n.lists then n.lists[e] else []
  }

  function MappingsOrErr(n: Node): Result<seq<Neighbor>, EdgeError>
    requires |n.loadedTypes| == 5
    reads n
  {
    if n.loadedTypes[1] then Ok(ListOf(n, MAPPINGS)) else Err(NotLoaded)
  }

  function AllowedClientsOrErr(n: Node): Result<seq<Neighbor>, EdgeError>
    requires |n.loadedTypes| == 5
    reads n
  {
    if n.loadedTypes[2] then Ok(ListOf(n, ALLOWED_CLIENTS)) else Err(NotLoaded)
  }

  function ExitRulesOrErr(n: Node): Result<seq<Neighbor>, EdgeError>
    requires |n.loadedTypes| == 5
    reads n
  {
    if n.loadedTypes[3] then Ok(ListOf(n, EXIT_RULES)) else Err(NotLoaded)
  }

  function TransferSharesOrErr(n: Node): Result<seq<Neighbor>, EdgeError>
    requires |n.loadedTypes| == 5
    reads n
  {
    if n.loadedTypes[4] then Ok(ListOf(n, TRANSFER_SHARES)) else Err(NotLoaded)
  }

  // ---------------------------------------------------------------------------------------
  // The query
  // ---------------------------------------------------------------------------------------

  /** A sub-query as a value: its fields at some moment. */
  datatype Question = Question(table: seq<Column>, fkColumn: Column, fetch: seq<seq<Key>> -> Result<seq<Row>, Error>,
                               fields: seq<Column>, filters: seq<seq<Key>>)

  ghost function State(q: SubQuery?): Option<Question>
    reads q
  {
    if q == null then None else Some(Question(q.table, q.fkColumn, q.fetch, q.fields, q.filters))
  }

  /** The question that a list edge ends up with: the rows that refer to the ids, foreign key
      included. */
  function Referring(q: Option<Question>, ids: seq<Key>): Option<Question>
  {
    if q.None? then None
    else Some(q.value.(filters := q.value.filters + [ids],
                       fields := if q.value.fields == [] then [] else AddOnce(q.value.fields, q.value.fkColumn)))
  }

  /** The question that the owner edge ends up with. */
  function WithIds(q: Option<Question>, ids: seq<Key>): Option<Question>
  {
    if q.None? then None else Some(q.value.(filters := q.value.filters + [ids]))
  }

  /** What a question brings. */
  function Got(q: Question): seq<Neighbor>
  {
    if q.fetch(q.filters).Err? then []
    else Decode(q.fetch(q.filters).value, ColumnsOf(q.table, q.fields, None), q.fkColumn)
  }

  /** The answer does not fit parents with these ids. */
  ghost predicate Misfits(q: Option<Question>, ids: seq<Key>)
  {
    q.Some? && (q.value.fetch(q.value.filters).Err? || exists n <- Got(q.value) :: !Known(ids, n))
  }

  ghost predicate OwnerMisfits(q: Option<Question>, keys: seq<Option<Key>>)
  {
    q.Some? && (q.value.fetch(q.value.filters).Err? || exists n <- Got(q.value) :: !Held(keys, |keys|, n.id))
  }

  /** The first neighbor whose foreign key is no parent's id. */
  ghost predicate StopsAt(ns: seq<Neighbor>, ids: seq<Key>, k: nat)
  {
    k < |ns| && !Known(ids, ns[k]) && forall j :: 0 <= j < k ==> Known(ids, ns[j])
  }

  /** The error that loading a list edge ends with: the database's own, or one about the first
      neighbor that no parent has. */
  ghost predicate FailsWith(q: Option<Question>, ids: seq<Key>, err: Error)
  {
    && q.Some?
    && if q.value.fetch(q.value.filters).Err? then err == q.value.fetch(q.value.filters).error
       else exists k: nat :: StopsAt(Got(q.value), ids, k) && err == UnexpectedForeignKey(Got(q.value)[k].fk)
  }

  /** The first neighbor whose id no parent holds as a key. */
  ghost predicate OwnerStopsAt(ns: seq<Neighbor>, keys: seq<Option<Key>>, k: nat)
  {
    k < |ns| && !Held(keys, |keys|, ns[k].id) && forall j :: 0 <= j < k ==> Held(keys, |keys|, ns[j].id)
  }

  ghost predicate OwnerFailsWith(q: Option<Question>, keys: seq<Option<Key>>, err: Error)
  {
    && q.Some?
    && if q.value.fetch(q.value.filters).Err? then err == q.value.fetch(q.value.filters).error
       else exists k: nat :: OwnerStopsAt(Got(q.value), keys, k) && err == UnexpectedForeignKey(Got(q.value)[k].id)
  }

  /** Edge e of every parent: nil if not asked for, and otherwise joined. */
  ghost predicate EdgeIs(nodes: seq<Node>, ids: seq<Key>, e: nat, q: Option<Question>)
    requires |ids| == |nodes|
    reads nodes`lists
  {
    forall i :: 0 <= i < |nodes| ==>
      if q.None? then e !in nodes[i].lists
      else e in nodes[i].lists && Attached(nodes[i].lists[e], ids, i, Got(q.value), |Got(q.value)|)
  }

  /** The owner of every parent: nil if not asked for, and otherwise looked up. */
  ghost predicate OwnerIs(nodes: seq<Node>, keys: seq<Option<Key>>, q: Option<Question>)
    requires |keys| == |nodes|
    reads nodes`owner
  {
    forall i :: 0 <= i < |nodes| ==>
      nodes[i].owner == if q.None? then None else OwnerAfter(None, keys[i], Got(q.value), |Got(q.value)|)
  }

  ghost predicate DistinctEdges(edges: seq<SubQuery?>)
  {
    |edges| == 5 && forall e :: 0 <= e < 5 && edges[e] != null ==> edges[e].edge == e
  }

  class TailServerQuery {
    const rows: Result<seq<Row>, Error>    // what QueryNodes answers
    var fields: seq<Column>
    var withOwner: SubQuery?
    var withMappings: SubQuery?
    var withAllowedClients: SubQuery?
    var withExitRules: SubQuery?
    var withTransferShares: SubQuery?

    constructor (rows: Result<seq<Row>, Error>, fields: seq<Column>)
      ensures this.rows == rows && this.fields == fields && withOwner == null && withMappings == null
      ensures withAllowedClients == null && withExitRules == null && withTransferShares == null
    {
      this.rows, this.fields, withOwner, withMappings := rows, fields, null, null;
      withAllowedClients, withExitRules, withTransferShares := null, null, null;
    }

    /** The edge queries in the order in which sqlAll loads them. */
    function Edges(): seq<SubQuery?>
      reads this
    {
      [withOwner, withMappings, withAllowedClients, withExitRules, withTransferShares]
    }

    /** The sub-queries are of different types, and so never the same object. */
    ghost predicate Valid()
      reads this
    {
      DistinctEdges(Edges())
    }

    /** The columns of the parents that this query reads. */
    function Columns(): seq<Column>
      reads this
    {
      ColumnsOf(TABLE, fields, if withOwner != null then Some(USER_ID) else None)
    }

    /** loadedTypes, filled in the order of the edges struct. */
    function LoadedTypes(): seq<bool>
      reads this
    {
      [
        withOwner != null, withMappings != null, withAllowedClients != null, withExitRules != null,
        withTransferShares != null
      ]
    }
  }

  /** The Assign closure, once per row. */
  method DecodeNodes(rows: seq<Row>, columns: seq<Column>, loadedTypes: seq<bool>) returns (nodes: seq<Node>)
    ensures DistinctNodes(nodes) && |nodes| == |rows| && fresh(nodes)
    ensures Ids(nodes) == IdsIn(rows, columns) && Keys(nodes) == KeysIn(rows, columns)
    ensures forall i :: 0 <= i < |nodes| ==>
      nodes[i].loadedTypes == loadedTypes && nodes[i].owner == None && nodes[i].lists == map[] && nodes[i].key.Some?
  {
    nodes := [];
    for i := 0 to |rows|
      invariant DistinctNodes(nodes) && |nodes| == i && fresh(nodes)
      invariant forall k :: 0 <= k < i ==>
        && nodes[k].loadedTypes == loadedTypes && nodes[k].owner == None && nodes[k].lists == map[]
        && nodes[k].id == Text(rows[k], columns, ID) && nodes[k].key == Some(Text(rows[k], columns, USER_ID))
    {
      var node := new Node(i, Text(rows[i], columns, ID), Some(Text(rows[i], columns, USER_ID)), loadedTypes);
      nodes := nodes + [node];
    }
  }

  /** One `if query := _q.withX; query != nil` of sqlAll. */
  method LoadEdge(nodes: seq<Node>, e: nat, q: SubQuery?) returns (err: Option<Error>)
    requires DistinctNodes(nodes) && forall i :: 0 <= i < |nodes| ==> e !in nodes[i].lists
    modifies nodes`lists, q
    ensures State(q) == Referring(old(State(q)), Ids(nodes))
    ensures forall i :: 0 <= i < |nodes| ==> Same(nodes[i].lists, old(nodes[i].lists), e)
    ensures err.None? ==> EdgeIs(nodes, Ids(nodes), e, State(q))
    ensures err.Some? <==> Misfits(State(q), Ids(nodes))
    ensures err.Some? ==> FailsWith(State(q), Ids(nodes), err.value)
  {
    err := None;
    if q != null {
      ghost var got, k;
      err, got, k := LoadMany(nodes, e, q);
      assert err.Some? && q.fetch(q.filters).Ok? ==> StopsAt(Got(State(q).value), Ids(nodes), k);
    }
  }

  /** No edge but e differs. */
  ghost predicate Same(now: map<nat, seq<Neighbor>>, before: map<nat, seq<Neighbor>>, e: nat)
  {
    forall x :: x != e ==> if x in before then x in now && now[x] == before[x] else x !in now
  }

  /** The first `if` of sqlAll. A parent of a non-empty result has a key, so something is asked. */
  method LoadOwner(nodes: seq<Node>, q: SubQuery?) returns (err: Option<Error>, ghost ids: seq<Key>)
    requires DistinctNodes(nodes) && nodes != []
    requires forall i :: 0 <= i < |nodes| ==> nodes[i].owner == None && nodes[i].key.Some?
    modifies nodes`owner, q
    ensures FirstOccurrences(ids, Keys(nodes), |nodes|) || q == null
    ensures State(q) == WithIds(old(State(q)), ids)
    ensures err.None? ==> OwnerIs(nodes, Keys(nodes), State(q))
    ensures err.Some? <==> OwnerMisfits(State(q), Keys(nodes))
    ensures err.Some? ==> OwnerFailsWith(State(q), Keys(nodes), err.value)
  {
    err, ids := None, [];
    if q != null {
      ghost var got, k;
      err, ids, got, k := LoadOne(nodes, q);
      assert err.Some? && q.fetch(q.filters).Ok? ==> OwnerStopsAt(Got(State(q).value), Keys(nodes), k);
      FirstOccurrencesOnce(ids, Keys(nodes), |nodes|);
      assert Keys(nodes)[0] == Some(nodes[0].key.value);
      assert Held(Keys(nodes), |nodes|, nodes[0].key.value);
    }
  }

  /** List edges before e are loaded, those from e on are still nil. */
  ghost predicate LoadedUpTo(nodes: seq<Node>, start: seq<Option<Question>>, ids: seq<Key>, e: nat)
    requires |start| == 5 && |ids| == |nodes|
    reads nodes`lists
  {
    && (forall i, x :: 0 <= i < |nodes| && x >= e ==> x !in nodes[i].lists)
    && (forall x :: 1 <= x < e && x < 5 ==> EdgeIs(nodes, ids, x, Referring(start[x], ids)))
  }

  /** The list edges before e have been asked, and those from e on have not. */
  ghost predicate AskedUpTo(edges: seq<SubQuery?>, start: seq<Option<Question>>, ids: seq<Key>, e: nat)
    requires |edges| == |start| == 5
    reads edges
  {
    forall x :: 1 <= x < 5 ==> State(edges[x]) == if x < e then Referring(start[x], ids) else start[x]
  }

  method LoadNext(nodes: seq<Node>, edges: seq<SubQuery?>, e: nat, ghost start: seq<Option<Question>>,
                  ghost ids: seq<Key>)
      returns (err: Option<Error>)
    requires DistinctNodes(nodes) && DistinctEdges(edges) && 1 <= e < 5 && |start| == 5 && ids == Ids(nodes)
    requires LoadedUpTo(nodes, start, ids, e) && AskedUpTo(edges, start, ids, e)
    modifies nodes`lists, edges[e]
    ensures AskedUpTo(edges, start, ids, e + 1) && State(edges[0]) == old(State(edges[0]))
    ensures err.Some? <==> Misfits(Referring(start[e], ids), ids)
    ensures err.Some? ==> FailsWith(Referring(start[e], ids), ids, err.value)
    ensures err.None? ==> LoadedUpTo(nodes, start, ids, e + 1)
  {
    err := LoadEdge(nodes, e, edges[e]);
    if err.None? {
      forall x | 1 <= x < e ensures EdgeIs(nodes, ids, x, Referring(start[x], ids)) {
        assert old(EdgeIs(nodes, ids, x, Referring(start[x], ids)));
      }
    }
  }

  /** The list edges before e fit. */
  ghost predicate FitUpTo(start: seq<Option<Question>>, ids: seq<Key>, e: nat)
    requires |start| == 5
  {
    forall x :: 1 <= x < e && x < 5 ==> !Misfits(Referring(start[x], ids), ids)
  }

  /** The other `if`s of sqlAll, one after the other. */
  method LoadLists(nodes: seq<Node>, edges: seq<SubQuery?>, ghost start: seq<Option<Question>>, ghost ids: seq<Key>)
      returns (err: Option<Error>, ghost at: nat)
    requires DistinctNodes(nodes) && DistinctEdges(edges) && |start| == 5 && ids == Ids(nodes)
    requires LoadedUpTo(nodes, start, ids, 1) && AskedUpTo(edges, start, ids, 1)
    modifies nodes`lists, edges
    ensures AskedUpTo(edges, start, ids, at + 1) && State(edges[0]) == old(State(edges[0]))
    ensures 1 <= at <= 5 && FitUpTo(start, ids, at) && (err.None? <==> at == 5)
    ensures if err.None? then LoadedUpTo(nodes, start, ids, 5)
            else Misfits(Referring(start[at], ids), ids) && FailsWith(Referring(start[at], ids), ids, err.value)
  {
    at := 1;
    for e := 1 to 5
      invariant at == e && LoadedUpTo(nodes, start, ids, e) && FitUpTo(start, ids, e)
      invariant AskedUpTo(edges, start, ids, e) && State(edges[0]) == old(State(edges[0]))
    {
      err := LoadNext(nodes, edges, e, start, ids);
      if err.Some? {
        return;
      }
      at := e + 1;
    }
    err := None;
  }

  // The keys of the parents, as read from rows.

  function IdsIn(rows: seq<Row>, columns: seq<Column>): (ids: seq<Key>)
    ensures |ids| == |rows| && forall i :: 0 <= i < |ids| ==> ids[i] == Text(rows[i], columns, ID)
  {
    seq(|rows|, i requires 0 <= i < |rows| => Text(rows[i], columns, ID))
  }

  function KeysIn(rows: seq<Row>, columns: seq<Column>): (keys: seq<Option<Key>>)
    ensures |keys| == |rows| && forall i :: 0 <= i < |keys| ==> keys[i] == Some(Text(rows[i], columns, USER_ID))
  {
    seq(|rows|, i requires 0 <= i < |rows| => Some(Text(rows[i], columns, USER_ID)))
  }

  /** How the loads end, told from the questions at the start and the keys of the parents alone:
      edges are asked in turn up to the first whose answer does not fit. */
  ghost predicate Outcome(start: seq<Option<Question>>, ownerIds: seq<Key>, ids: seq<Key>, keys: seq<Option<Key>>,
                          failed: bool, at: nat)
    requires |start| == 5
  {
    && (start[0].Some? ==> FirstOccurrences(ownerIds, keys, |keys|))
    && at <= 5 && (failed <==> at < 5)
    && if at == 0 then OwnerMisfits(WithIds(start[0], ownerIds), keys)
       else
         && !OwnerMisfits(WithIds(start[0], ownerIds), keys) && FitUpTo(start, ids, at)
         && (at < 5 ==> Misfits(Referring(start[at], ids), ids))
  }

  /** The error of a query that ends at edge `at`. */
  ghost predicate Blamed(start: seq<Option<Question>>, ownerIds: seq<Key>, ids: seq<Key>, keys: seq<Option<Key>>,
                         at: nat, err: Error)
    requires |start| == 5
  {
    && at < 5
    && if at == 0 then OwnerFailsWith(WithIds(start[0], ownerIds), keys, err)
       else FailsWith(Referring(start[at], ids), ids, err)
  }

  /** The loads of sqlAll for parents just decoded. */
  method LoadEdges(nodes: seq<Node>, edges: seq<SubQuery?>, ghost start: seq<Option<Question>>, ghost ids: seq<Key>,
                   ghost keys: seq<Option<Key>>)
      returns (err: Option<Error>, ghost at: nat, ghost ownerIds: seq<Key>)
    requires DistinctNodes(nodes) && DistinctEdges(edges) && nodes != [] && |start| == 5
    requires ids == Ids(nodes) && keys == Keys(nodes)
    requires forall i :: 0 <= i < |nodes| ==> nodes[i].owner == None && nodes[i].key.Some? && nodes[i].lists == map[]
    requires State(edges[0]) == start[0] && AskedUpTo(edges, start, ids, 1)
    modifies nodes`lists, nodes`owner, edges
    ensures Outcome(start, ownerIds, ids, keys, err.Some?, at)
    ensures err.Some? ==> Blamed(start, ownerIds, ids, keys, at, err.value)
    ensures State(edges[0]) == WithIds(start[0], ownerIds) && AskedUpTo(edges, start, ids, at + 1)
    ensures err.None? ==> OwnerIs(nodes, keys, WithIds(start[0], ownerIds)) && LoadedUpTo(nodes, start, ids, 5)
  {
    at := 0;
    err, ownerIds := LoadOwner(nodes, edges[0]);
    if err.None? {
      err, at := LoadLists(nodes, edges, start, ids);
    }
  }

  /** What a finished query leaves behind. */
  ghost predicate Complete(nodes: seq<Node>, start: seq<Option<Question>>, ownerIds: seq<Key>, ids: seq<Key>,
                           keys: seq<Option<Key>>)
    requires |start| == 5
    reads nodes
  {
    && Ids(nodes) == ids && |keys| == |ids|
    && OwnerIs(nodes, keys, WithIds(start[0], ownerIds))
    && (forall e :: 1 <= e < 5 ==> EdgeIs(nodes, ids, e, Referring(start[e], ids)))
    && forall i :: 0 <= i < |nodes| ==> nodes[i].loadedTypes == Flags(start)
  }

  function Flags(start: seq<Option<Question>>): seq<bool>
    requires |start| == 5
  {
    [start[0].Some?, start[1].Some?, start[2].Some?, start[3].Some?, start[4].Some?]
  }

  ghost predicate Starts(edges: seq<SubQuery?>, start: seq<Option<Question>>)
    requires |edges| == 5
    reads edges
  {
    |start| == 5 && forall e :: 0 <= e < 5 ==> State(edges[e]) == start[e]
  }

  /** The flags of a query and of its entities stand in the same order. */
  lemma {:induction false} FlagsMatch(query: TailServerQuery, start: seq<Option<Question>>)
    requires Starts(query.Edges(), start)
    ensures query.LoadedTypes() == Flags(start)
  {
    var edges := query.Edges();
    assert State(edges[0]) == start[0] && State(edges[1]) == start[1] && State(edges[2]) == start[2];
    assert State(edges[3]) == start[3] && State(edges[4]) == start[4];
  }

  /** sqlAll. A failing or empty result leaves the edge queries alone. Otherwise every edge that
      was asked for is loaded into parents decoded from the rows, or the first edge whose answer
      does not fit ends the query with an error. */
  method SqlAll(query: TailServerQuery, ghost start: seq<Option<Question>>)
      returns (r: Result<seq<Node>, Error>, ghost at: nat, ghost ownerIds: seq<Key>)
    requires query.Valid() && Starts(query.Edges(), start)
    modifies query.Edges()
    ensures query.rows.Err? ==> r == Err(query.rows.error)
    ensures query.rows == Ok([]) ==> r == Ok([])
    ensures query.rows.Err? || query.rows.value == [] ==> Starts(query.Edges(), start)
    ensures query.rows.Ok? && query.rows.value != [] ==>
      Ran(query.Edges(), query.rows.value, query.Columns(), start, r, at, ownerIds)
    ensures r.Ok? ==> fresh(r.value) && DistinctNodes(r.value)
  {
    FlagsMatch(query, start);
    var columns := SpecColumns(TABLE, query.fields, if query.withOwner != null then Some(USER_ID) else None);
    r, at, ownerIds := DecodeAndLoad(query.rows, columns, query.LoadedTypes(), query.Edges(), start);
  }

  /** A query over a result with rows, seen from its end. */
  ghost predicate Ran(edges: seq<SubQuery?>, rows: seq<Row>, columns: seq<Column>, start: seq<Option<Question>>,
                      r: Result<seq<Node>, Error>, at: nat, ownerIds: seq<Key>)
    requires |edges| == |start| == 5
    reads edges, if r.Ok? then r.value else []
  {
    var ids, keys := IdsIn(rows, columns), KeysIn(rows, columns);
    && Outcome(start, ownerIds, ids, keys, r.Err?, at)
    && State(edges[0]) == WithIds(start[0], ownerIds) && AskedUpTo(edges, start, ids, at + 1)
    && (if r.Ok? then Complete(r.value, start, ownerIds, ids, keys)
        else Blamed(start, ownerIds, ids, keys, at, r.error))
  }

  method DecodeAndLoad(rows: Result<seq<Row>, Error>, columns: seq<Column>, loadedTypes: seq<bool>,
                       edges: seq<SubQuery?>, ghost start: seq<Option<Question>>)
      returns (r: Result<seq<Node>, Error>, ghost at: nat, ghost ownerIds: seq<Key>)
    requires DistinctEdges(edges) && Starts(edges, start) && loadedTypes == Flags(start)
    modifies edges
    ensures rows.Err? ==> r == Err(rows.error)
    ensures rows == Ok([]) ==> r == Ok([])
    ensures rows.Err? || rows.value == [] ==> Starts(edges, start)
    ensures rows.Ok? && rows.value != [] ==> Ran(edges, rows.value, columns, start, r, at, ownerIds)
    ensures r.Ok? ==> fresh(r.value) && DistinctNodes(r.value)
  {
    at, ownerIds := 0, [];
    if rows.Err? {
      return Err(rows.error), at, ownerIds;
    }
    var nodes := DecodeNodes(rows.value, columns, loadedTypes);
    if |nodes| == 0 {
      return Ok(nodes), at, ownerIds;
    }
    r, at, ownerIds := LoadParents(nodes, edges, start, IdsIn(rows.value, columns), KeysIn(rows.value, columns));
  }

  method LoadParents(nodes: seq<Node>, edges: seq<SubQuery?>, ghost start: seq<Option<Question>>, ghost ids: seq<Key>,
                     ghost keys: seq<Option<Key>>)
      returns (r: Result<seq<Node>, Error>, ghost at: nat, ghost ownerIds: seq<Key>)
    requires DistinctNodes(nodes) && DistinctEdges(edges) && nodes != [] && Starts(edges, start)
    requires ids == Ids(nodes) && keys == Keys(nodes)
    requires forall i :: 0 <= i < |nodes| ==>
      nodes[i].owner == None && nodes[i].key.Some? && nodes[i].lists == map[] && nodes[i].loadedTypes == Flags(start)
    modifies nodes`lists, nodes`owner, edges
    ensures Outcome(start, ownerIds, ids, keys, r.Err?, at)
    ensures State(edges[0]) == WithIds(start[0], ownerIds) && AskedUpTo(edges, start, ids, at + 1)
    ensures if r.Ok? then r.value == nodes && Complete(nodes, start, ownerIds, ids, keys)
            else Blamed(start, ownerIds, ids, keys, at, r.error)
  {
    var err;
    err, at, ownerIds := LoadEdges(nodes, edges, start, ids, keys);
    r := if err.Some? then Err(err.value) else Ok(nodes);
  }
}
