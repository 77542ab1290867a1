// Whole queries with eager loading: what the accessors of the results say, and that it is the
// join of the tables whatever columns were selected.
module QueryTheorems {
  import opened Wrappers
  import opened EagerLoad
  import opened JoinTheorems
  import opened ServerQuery

  /** The accessor of list edge e. */
  function ListOrErr(n: Node, e: nat): Result<seq<Neighbor>, EdgeError>
    requires |n.loadedTypes| == 5 && 1 <= e < 5
    reads n
  {
    if e == MAPPINGS then MappingsOrErr(n)
    else if e == ALLOWED_CLIENTS then AllowedClientsOrErr(n)
    else if e == EXIT_RULES then ExitRulesOrErr(n)
    else TransferSharesOrErr(n)
  }

  // ---------------------------------------------------------------------------------------
  // Loaded, not loaded, not found
  // ---------------------------------------------------------------------------------------

  /** After a successful query a list accessor says "not loaded" exactly if the edge was not asked
      for, and otherwise returns what is attached to the entity. */
  lemma {:induction false} ListAccessorAgrees(nodes: seq<Node>, start: seq<Option<Question>>, ownerIds: seq<Key>,
                                              ids: seq<Key>, keys: seq<Option<Key>>, i: nat, e: nat)
    requires |start| == 5 && Complete(nodes, start, ownerIds, ids, keys) && i < |nodes| && 1 <= e < 5
    ensures ListOrErr(nodes[i], e) == Err(NotLoaded) <==> start[e].None?
    ensures start[e].Some? ==>
      var got := Got(Referring(start[e], ids).value);
      && ListOrErr(nodes[i], e).Ok?
      && Attached(ListOrErr(nodes[i], e).value, ids, i, got, |got|)
  {
    FlagOf(start, e);
    EdgeAt(nodes, ids, e, Referring(start[e], ids), i);
    ListOrErrReads(nodes[i], e);
  }

  lemma {:induction false} FlagOf(start: seq<Option<Question>>, e: nat)
    requires |start| == 5 && e < 5
    ensures Flags(start)[e] == start[e].Some?
  {
  }

  lemma {:induction false} EdgeAt(nodes: seq<Node>, ids: seq<Key>, e: nat, q: Option<Question>, i: nat)
    requires |ids| == |nodes| && EdgeIs(nodes, ids, e, q) && i < |nodes|
    ensures q.Some? ==> Attached(ListOf(nodes[i], e), ids, i, Got(q.value), |Got(q.value)|)
  {
  }

  /** The accessor of an edge reads the flag and the list of that edge. */
  lemma {:induction false} ListOrErrReads(n: Node, e: nat)
    requires |n.loadedTypes| == 5 && 1 <= e < 5
    ensures ListOrErr(n, e) == if n.loadedTypes[e] then Ok(ListOf(n, e)) else Err(NotLoaded)
  {
  }

  /** The owner accessor says "not loaded" exactly if the edge was not asked for, "not found"
      exactly if it was and no entity came back with the key, and otherwise returns the last
      entity that did. */
  lemma {:induction false} OwnerAccessorAgrees(nodes: seq<Node>, start: seq<Option<Question>>, ownerIds: seq<Key>,
                                               ids: seq<Key>, keys: seq<Option<Key>>, i: nat)
    requires |start| == 5 && Complete(nodes, start, ownerIds, ids, keys) && i < |nodes| && keys[i].Some?
    ensures OwnerOrErr(nodes[i]) == Err(NotLoaded) <==> start[0].None?
    ensures start[0].Some? ==>
      var got := Got(WithIds(start[0], ownerIds).value);
      var p := LastWithId(got, |got|, keys[i].value);
      OwnerOrErr(nodes[i]) == if p < 0 then Err(NotFound) else Ok(got[p])
  {
    assert nodes[i].loadedTypes[0] == Flags(start)[0] == start[0].Some?;
  }

  // ---------------------------------------------------------------------------------------
  // Over tables
  // ---------------------------------------------------------------------------------------

  /** The rows of an edge's table, and what the edge query asks of them by itself. */
  datatype Table = Table(rows: seq<Row>, keep: Row -> bool)

  /** The edge query is answered from the table. */
  ghost predicate Backed(q: Option<Question>, t: Table, column: Column)
  {
    q.Some? ==>
      && Honest(q.value.fetch, t.rows, t.keep, column)
      && Once(q.value.table, ID) && q.value.fkColumn in q.value.table
  }

  ghost predicate AllBacked(start: seq<Option<Question>>, tables: seq<Table>)
    requires |start| == |tables| == 5
  {
    && Backed(start[0], tables[0], ID)
    && forall e :: 1 <= e < 5 && start[e].Some? ==> Backed(start[e], tables[e], start[e].value.fkColumn)
  }

  /** An id passes the lists that an edge query carried before it was asked. */
  predicate PassesEarlier(q: Question, id: Key)
  {
    forall f <- q.filters :: id in f
  }

  /** However the columns of an edge query are selected, its answer has the foreign key. */
  lemma {:induction false} ForeignKeyIsRead(q: Question, ids: seq<Key>)
    requires Once(q.table, ID) && q.fkColumn in q.table
    ensures var asked := Referring(Some(q), ids).value;
      && asked.fkColumn == q.fkColumn && asked.fetch == q.fetch && asked.filters == q.filters + [ids]
      && q.fkColumn in ColumnsOf(asked.table, asked.fields, None)
  {
    var asked := Referring(Some(q), ids).value;
    ColumnsSuffice(asked.table, asked.fields, None);
  }

  lemma {:induction false} ListEdgeFits(q: Question, t: Table, ids: seq<Key>)
    requires Backed(Some(q), t, q.fkColumn)
    ensures !Misfits(Referring(Some(q), ids), ids)
  {
    ForeignKeyIsRead(q, ids);
    var asked := Referring(Some(q), ids).value;
    forall n | n in Got(asked) ensures Known(ids, n) {
      AnswersAreKnown(q.fetch(asked.filters).value, t.rows, t.keep, ColumnsOf(asked.table, asked.fields, None),
                      q.fkColumn, q.filters, ids, n);
    }
  }

  /** One list edge over its table: the list is the nested loop's. */
  lemma {:induction false} ListEdgeOverTable(q: Question, t: Table, ids: seq<Key>, i: nat, list: seq<Neighbor>)
    requires Backed(Some(q), t, q.fkColumn) && i < |ids|
    requires var got := Got(Referring(Some(q), ids).value); Attached(list, ids, i, got, |got|)
    ensures Permutation(
      RowsOf(list),
      if LastPlace(ids, |ids|, ids[i]) == i && PassesEarlier(q, ids[i]) then
        NestedLoop(t.rows, t.keep, q.fkColumn, ids[i])
      else [])
  {
    ForeignKeyIsRead(q, ids);
    var asked := Referring(Some(q), ids).value;
    ListEdgeIsJoin(q.fetch, q.fkColumn, t.rows, t.keep, ColumnsOf(asked.table, asked.fields, None), q.filters,
                   ids, i, list);
  }

  /** The owner edge over its table. */
  lemma {:induction false} OwnerEdgeOverTable(q: Question, t: Table, ownerIds: seq<Key>, keys: seq<Option<Key>>, i: nat)
    requires Backed(Some(q), t, ID) && i < |keys| && keys[i].Some? && FirstOccurrences(ownerIds, keys, |keys|)
    ensures !OwnerMisfits(WithIds(Some(q), ownerIds), keys)
    ensures var got := Got(WithIds(Some(q), ownerIds).value);
      var p := LastWithId(got, |got|, keys[i].value);
      var found := if PassesEarlier(q, keys[i].value) then NestedLoop(t.rows, t.keep, ID, keys[i].value) else [];
      (p < 0 <==> found == []) && (p >= 0 ==> got[p].row in found)
  {
    var asked := WithIds(Some(q), ownerIds).value;
    var columns := ColumnsOf(asked.table, asked.fields, None);
    ColumnsSuffice(asked.table, asked.fields, None);
    OwnerEdgeIsLookup(q.fetch, q.fkColumn, t.rows, t.keep, columns, q.filters, keys, ownerIds, i);
  }

  /** Over tables no query with eager loading fails. */
  lemma {:induction false} NothingMisfits(start: seq<Option<Question>>, tables: seq<Table>, ownerIds: seq<Key>,
                                          ids: seq<Key>, keys: seq<Option<Key>>, failed: bool, at: nat)
    requires |start| == |tables| == 5 && AllBacked(start, tables)
    requires Outcome(start, ownerIds, ids, keys, failed, at) && keys != [] && keys[0].Some?
    ensures !failed && at == 5
  {
    if start[0].Some? {
      OwnerEdgeOverTable(start[0].value, tables[0], ownerIds, keys, 0);
    }
    if 0 < at < 5 && start[at].Some? {
      ListEdgeFits(start[at].value, tables[at], ids);
    }
  }

  /** What the owner accessor is to return for a key: a row that the lookup in the table finds, and
      so the row, ids being unique. */
  predicate IsLookup(r: Result<Neighbor, EdgeError>, found: seq<Row>)
  {
    if found == [] then r == Err(NotFound) else r.Ok? && r.value.row in found
  }

  /** No later row has the same id. */
  predicate IsLast(rows: seq<Row>, i: nat)
    requires i < |rows| && ID in rows[i]
  {
    forall k :: i < k < |rows| && ID in rows[k] ==> rows[k][ID] != rows[i][ID]
  }

  /** The owner accessor: "not loaded" if the edge was not asked for, and otherwise the lookup of
      the row's key, provided that the key passes what the edge query was narrowed by before. */
  ghost predicate OwnerJoined(n: Node, q: Option<Question>, t: Table, row: Row)
    requires USER_ID in row && |n.loadedTypes| == 5
    reads n
  {
    if q.None? then OwnerOrErr(n) == Err(NotLoaded)
    else
      IsLookup(OwnerOrErr(n),
               if PassesEarlier(q.value, row[USER_ID]) then NestedLoop(t.rows, t.keep, ID, row[USER_ID]) else [])
  }

  /** The accessor of list edge e: "not loaded" if the edge was not asked for, and otherwise what
      the nested loop finds for the row's id, in the order in which it came, with the same proviso.
      Of several rows with one id the last one has it all. */
  ghost predicate ListJoined(n: Node, e: nat, q: Option<Question>, t: Table, rows: seq<Row>, i: nat)
    requires i < |rows| && ID in rows[i] && |n.loadedTypes| == 5 && 1 <= e < 5
    reads n
  {
    IsListJoined(ListOrErr(n, e), q, t, rows, i)
  }

  ghost predicate IsListJoined(r: Result<seq<Neighbor>, EdgeError>, q: Option<Question>, t: Table, rows: seq<Row>,
                               i: nat)
    requires i < |rows| && ID in rows[i]
  {
    if q.None? then r == Err(NotLoaded)
    else
      && r.Ok?
      && Permutation(
           RowsOf(r.value),
           if IsLast(rows, i) && PassesEarlier(q.value, rows[i][ID]) then
             NestedLoop(t.rows, t.keep, q.value.fkColumn, rows[i][ID])
           else [])
  }

  lemma {:induction false} OwnerIsJoined(nodes: seq<Node>, start: seq<Option<Question>>, tables: seq<Table>,
                                         ownerIds: seq<Key>, ids: seq<Key>, keys: seq<Option<Key>>, row: Row, i: nat)
    requires |start| == |tables| == 5 && AllBacked(start, tables)
    requires Complete(nodes, start, ownerIds, ids, keys) && i < |nodes|
    requires start[0].Some? ==> FirstOccurrences(ownerIds, keys, |keys|)
    requires keys[i].Some? && USER_ID in row && (start[0].Some? ==> keys[i].value == row[USER_ID])
    ensures OwnerJoined(nodes[i], start[0], tables[0], row)
  {
    OwnerAccessorAgrees(nodes, start, ownerIds, ids, keys, i);
    if start[0].Some? {
      OwnerEdgeOverTable(start[0].value, tables[0], ownerIds, keys, i);
    }
  }

  lemma {:induction false} ListIsJoined(nodes: seq<Node>, start: seq<Option<Question>>, tables: seq<Table>,
                                        ownerIds: seq<Key>, ids: seq<Key>, keys: seq<Option<Key>>, rows: seq<Row>,
                                        i: nat, e: nat)
    requires |start| == |tables| == 5 && AllBacked(start, tables)
    requires Complete(nodes, start, ownerIds, ids, keys) && i < |nodes| && 1 <= e < 5
    requires |ids| == |rows| && forall k :: 0 <= k < |rows| ==> ID in rows[k] && ids[k] == rows[k][ID]
    ensures ListJoined(nodes[i], e, start[e], tables[e], rows, i)
  {
    ListAccessorAgrees(nodes, start, ownerIds, ids, keys, i, e);
    LastPlaceIs(ids, |ids|, ids[i]);
    assert ids[..|ids|] == ids;
    if start[e].Some? {
      ListEdgeOverTable(start[e].value, tables[e], ids, i, ListOrErr(nodes[i], e).value);
    }
  }

  /** Every row of the servers has its id and its owner's. */
  predicate Servers(rows: seq<Row>)
  {
    forall i :: 0 <= i < |rows| ==> ID in rows[i] && USER_ID in rows[i]
  }

  function Needed(start: seq<Option<Question>>): Option<Column>
    requires |start| == 5
  {
    if start[0].Some? then Some(USER_ID) else None
  }

  lemma {:induction false} KeysAreRead(rows: seq<Row>, fields: seq<Column>, needed: Option<Column>)
    requires Servers(rows) && (needed == None || needed == Some(USER_ID))
    ensures var columns := ColumnsOf(TABLE, fields, needed);
      forall i :: 0 <= i < |rows| ==>
        IdsIn(rows, columns)[i] == rows[i][ID] && (needed.Some? ==> KeysIn(rows, columns)[i] == Some(rows[i][USER_ID]))
  {
    assert TABLE[0] == ID && TABLE[1] == USER_ID;
    ColumnsSuffice(TABLE, fields, needed);
    var columns := ColumnsOf(TABLE, fields, needed);
    assert ID in columns;
    forall i | 0 <= i < |rows|
      ensures IdsIn(rows, columns)[i] == rows[i][ID]
      ensures needed.Some? ==> KeysIn(rows, columns)[i] == Some(rows[i][USER_ID])
    {
    }
  }

  /** Eager loading is the join. Whatever columns of the servers and of the edges are selected and
      whatever edges are asked for, a query over tables succeeds, every server read has its id,
      and every accessor says what the join of the tables says. */
  lemma {:induction false} EagerLoadingIsJoin(edges: seq<SubQuery?>, rows: seq<Row>, fields: seq<Column>,
                                              start: seq<Option<Question>>, tables: seq<Table>,
                                              r: Result<seq<Node>, Error>, at: nat, ownerIds: seq<Key>)
    requires |edges| == |start| == |tables| == 5 && rows != [] && Servers(rows) && AllBacked(start, tables)
    requires Ran(edges, rows, ColumnsOf(TABLE, fields, Needed(start)), start, r, at, ownerIds)
    ensures r.Ok? && |r.value| == |rows|
    ensures forall i :: 0 <= i < |rows| ==>
      && r.value[i].id == rows[i][ID] && |r.value[i].loadedTypes| == 5
      && OwnerJoined(r.value[i], start[0], tables[0], rows[i])
      && forall e :: 1 <= e < 5 ==> ListJoined(r.value[i], e, start[e], tables[e], rows, i)
  {
    var columns := ColumnsOf(TABLE, fields, Needed(start));
    var ids, keys := IdsIn(rows, columns), KeysIn(rows, columns);
    KeysAreRead(rows, fields, Needed(start));
    assert keys[0].Some?;
    NothingMisfits(start, tables, ownerIds, ids, keys, r.Err?, at);
    forall i | 0 <= i < |rows|
      ensures r.value[i].id == rows[i][ID] && |r.value[i].loadedTypes| == 5
      ensures OwnerJoined(r.value[i], start[0], tables[0], rows[i])
      ensures forall e :: 1 <= e < 5 ==> ListJoined(r.value[i], e, start[e], tables[e], rows, i)
    {
      OwnerIsJoined(r.value, start, tables, ownerIds, ids, keys, rows[i], i);
      forall e | 1 <= e < 5 ensures ListJoined(r.value[i], e, start[e], tables[e], rows, i) {
        ListIsJoined(r.value, start, tables, ownerIds, ids, keys, rows, i, e);
      }
    }
  }

  /** All, without interceptors, over tables. */
  method All(query: TailServerQuery, ghost rows: seq<Row>, ghost tables: seq<Table>, ghost start: seq<Option<Question>>)
      returns (nodes: seq<Node>)
    requires query.Valid() && Starts(query.Edges(), start) && query.rows == Ok(rows) && Servers(rows)
    requires |tables| == 5 && AllBacked(start, tables)
    modifies query.Edges()
    ensures |nodes| == |rows| && fresh(nodes)
    ensures forall i :: 0 <= i < |rows| ==>
      && nodes[i].id == rows[i][ID] && |nodes[i].loadedTypes| == 5
      && OwnerJoined(nodes[i], start[0], tables[0], rows[i])
      && forall e :: 1 <= e < 5 ==> ListJoined(nodes[i], e, start[e], tables[e], rows, i)
    ensures forall i :: 0 <= i < |rows| ==>
      && OwnerJoined(nodes[i], old(State(query.withOwner)), tables[0], rows[i])
      && IsListJoined(MappingsOrErr(nodes[i]), old(State(query.withMappings)), tables[1], rows, i)
      && IsListJoined(AllowedClientsOrErr(nodes[i]), old(State(query.withAllowedClients)), tables[2], rows, i)
      && IsListJoined(ExitRulesOrErr(nodes[i]), old(State(query.withExitRules)), tables[3], rows, i)
      && IsListJoined(TransferSharesOrErr(nodes[i]), old(State(query.withTransferShares)), tables[4], rows, i)
  {
    ghost var at, ownerIds;
    var r;
    EdgesByName(query, start);
    r, at, ownerIds := SqlAll(query, start);
    if rows != [] {
      assert State(query.Edges()[0]).Some? <==> start[0].Some?;
      EagerLoadingIsJoin(query.Edges(), rows, query.fields, start, tables, r, at, ownerIds);
    }
    nodes := r.value;
    forall i | 0 <= i < |rows|
      ensures IsListJoined(MappingsOrErr(nodes[i]), start[1], tables[1], rows, i)
      ensures IsListJoined(AllowedClientsOrErr(nodes[i]), start[2], tables[2], rows, i)
      ensures IsListJoined(ExitRulesOrErr(nodes[i]), start[3], tables[3], rows, i)
      ensures IsListJoined(TransferSharesOrErr(nodes[i]), start[4], tables[4], rows, i)
    {
      assert ListJoined(nodes[i], MAPPINGS, start[1], tables[1], rows, i);
      assert ListJoined(nodes[i], ALLOWED_CLIENTS, start[2], tables[2], rows, i);
      assert ListJoined(nodes[i], EXIT_RULES, start[3], tables[3], rows, i);
      assert ListJoined(nodes[i], TRANSFER_SHARES, start[4], tables[4], rows, i);
    }
  }

  lemma {:induction false} EdgesByName(query: TailServerQuery, start: seq<Option<Question>>)
    requires Starts(query.Edges(), start)
    ensures start == [State(query.withOwner), State(query.withMappings), State(query.withAllowedClients),
                      State(query.withExitRules), State(query.withTransferShares)]
  {
    var edges := query.Edges();
    assert State(edges[0]) == start[0] && State(edges[1]) == start[1] && State(edges[2]) == start[2];
    assert State(edges[3]) == start[3] && State(edges[4]) == start[4];
  }
}
