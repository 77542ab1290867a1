// sqlAll of AuditEventQuery: the one edge that leads over a nullable foreign key.
module AuditQuery {
  import opened Wrappers
  import opened EagerLoad
  import opened JoinTheorems
  import opened ServerQuery
  import opened QueryTheorems

  const AUDIT_TABLE: seq<Column> := seq(9, i => i)

  function UserOrErr(n: Node): Result<Neighbor, EdgeError>
    requires |n.loadedTypes| == 1
    reads n
  {
    if n.owner.Some? then Ok(n.owner.value) else if n.loadedTypes[0] then Err(NotFound) else Err(NotLoaded)
  }

  /** The keys of the events; a user that is not read, or null, is a nil pointer. */
  function UserKeys(rows: seq<Row>, columns: seq<Column>): (keys: seq<Option<Key>>)
    ensures |keys| == |rows| && forall i :: 0 <= i < |keys| ==> keys[i] == NullableText(rows[i], columns, USER_ID)
  {
    seq(|rows|, i requires 0 <= i < |rows| => NullableText(rows[i], columns, USER_ID))
  }

  method DecodeEvents(rows: seq<Row>, columns: seq<Column>, loaded: bool) returns (nodes: seq<Node>)
    ensures DistinctNodes(nodes) && |nodes| == |rows| && fresh(nodes) && Keys(nodes) == UserKeys(rows, columns)
    ensures forall i :: 0 <= i < |nodes| ==>
      nodes[i].id == Text(rows[i], columns, ID) && nodes[i].loadedTypes == [loaded] && nodes[i].owner == None
  {
    nodes := [];
    for i := 0 to |rows|
      invariant DistinctNodes(nodes) && |nodes| == i && fresh(nodes)
      invariant forall k :: 0 <= k < i ==>
        && nodes[k].key == NullableText(rows[k], columns, USER_ID) && nodes[k].id == Text(rows[k], columns, ID)
        && nodes[k].loadedTypes == [loaded] && nodes[k].owner == None
    {
      var node := new Node(i, Text(rows[i], columns, ID), NullableText(rows[i], columns, USER_ID), [loaded]);
      nodes := nodes + [node];
    }
  }

  /** The users that a loaded query attached, `ids` being what it asked for. */
  ghost predicate UsersAre(nodes: seq<Node>, keys: seq<Option<Key>>, q: Option<Question>, ids: seq<Key>)
    requires |keys| == |nodes|
    reads nodes`owner
  {
    forall i :: 0 <= i < |nodes| ==>
      nodes[i].owner ==
      if q.None? || ids == [] then None
      else var got := Got(WithIds(q, ids).value); OwnerAfter(None, keys[i], got, |got|)
  }

  /** sqlAll: with no events, or no event that has a user, the user query is not asked. */
  method SqlAll(rows: Result<seq<Row>, Error>, fields: seq<Column>, withUser: SubQuery?)
      returns (r: Result<seq<Node>, Error>, ghost ids: seq<Key>)
    modifies withUser
    ensures rows.Err? ==> r == Err(rows.error)
    ensures rows.Err? || rows.value == [] ==> State(withUser) == old(State(withUser))
    ensures rows.Ok? ==>
      var start := old(State(withUser));
      var columns := ColumnsOf(AUDIT_TABLE, fields, if start.Some? then Some(USER_ID) else None);
      var keys := UserKeys(rows.value, columns);
      && (start.Some? && rows.value != [] ==> FirstOccurrences(ids, keys, |keys|))
      && State(withUser) == (if rows.value == [] || ids == [] then start else WithIds(start, ids))
      && (r.Err? <==> start.Some? && rows.value != [] && ids != [] && OwnerMisfits(WithIds(start, ids), keys))
      && (r.Err? ==> OwnerFailsWith(WithIds(start, ids), keys, r.error))
      && (r.Ok? ==>
            && DistinctNodes(r.value) && fresh(r.value) && |r.value| == |rows.value|
            && UsersAre(r.value, keys, start, ids)
            && forall i :: 0 <= i < |r.value| ==>
                 r.value[i].id == Text(rows.value[i], columns, ID) && r.value[i].loadedTypes == [start.Some?])
  {
    ids := [];
    if rows.Err? {
      return Err(rows.error), ids;
    }
    var columns := SpecColumns(AUDIT_TABLE, fields, if withUser != null then Some(USER_ID) else None);
    var nodes := DecodeEvents(rows.value, columns, withUser != null);
    if |nodes| == 0 || withUser == null {
      return Ok(nodes), ids;
    }
    var err;
    err, ids := LoadUser(nodes, withUser);
    r := if err.Some? then Err(err.value) else Ok(nodes);
  }

  method LoadUser(nodes: seq<Node>, query: SubQuery) returns (err: Option<Error>, ghost ids: seq<Key>)
    requires DistinctNodes(nodes) && forall i :: 0 <= i < |nodes| ==> nodes[i].owner == None
    modifies nodes`owner, query
    ensures FirstOccurrences(ids, Keys(nodes), |nodes|)
    ensures State(query) == if ids == [] then old(State(query)) else WithIds(old(State(query)), ids)
    ensures err.Some? <==> ids != [] && OwnerMisfits(WithIds(old(State(query)), ids), Keys(nodes))
    ensures err.None? ==> UsersAre(nodes, Keys(nodes), old(State(query)), ids)
    ensures err.Some? ==> OwnerFailsWith(WithIds(old(State(query)), ids), Keys(nodes), err.value)
  {
    ghost var got, k;
    err, ids, got, k := LoadOne(nodes, query);
    assert err.Some? && query.fetch(query.filters).Ok? ==> OwnerStopsAt(Got(State(query).value), Keys(nodes), k);
  }

  /** The user accessor over a table: "not loaded" exactly if the edge was not asked for, "not
      found" exactly if it was and the event has no user or none with its key is in the table, and
      otherwise the user. No column selection changes that, and nothing fails. */
  lemma {:induction false} UserEdgeIsLookup(nodes: seq<Node>, rows: seq<Row>, fields: seq<Column>,
                                            start: Option<Question>, ids: seq<Key>, t: Table, i: nat)
    requires Backed(start, t, ID) && |nodes| == |rows| && i < |rows|
    requires |nodes[i].loadedTypes| == 1 && nodes[i].loadedTypes[0] == start.Some?
    requires var columns := ColumnsOf(AUDIT_TABLE, fields, if start.Some? then Some(USER_ID) else None);
      var keys := UserKeys(rows, columns);
      && (start.Some? ==> FirstOccurrences(ids, keys, |keys|))
      && UsersAre(nodes, keys, start, ids)
    ensures start.Some? && ids != [] ==>
      var columns := ColumnsOf(AUDIT_TABLE, fields, Some(USER_ID));
      !OwnerMisfits(WithIds(start, ids), UserKeys(rows, columns))
    ensures
      if start.None? then UserOrErr(nodes[i]) == Err(NotLoaded)
      else if USER_ID !in rows[i] then UserOrErr(nodes[i]) == Err(NotFound)
      else
        var key := rows[i][USER_ID];
        IsLookup(UserOrErr(nodes[i]),
                 if PassesEarlier(start.value, key) then NestedLoop(t.rows, t.keep, ID, key) else [])
  {
    if start.Some? {
      var columns := ColumnsOf(AUDIT_TABLE, fields, Some(USER_ID));
      var keys := UserKeys(rows, columns);
      assert AUDIT_TABLE[0] == ID && AUDIT_TABLE[1] == USER_ID;
      ColumnsSuffice(AUDIT_TABLE, fields, Some(USER_ID));
      FirstOccurrencesOnce(ids, keys, |keys|);
      if ids != [] {
        var k := SomeKeyHeld(ids, keys);
        OwnerEdgeOverTable(start.value, t, ids, keys, k);
      }
      if keys[i].Some? {
        assert Held(keys, |keys|, keys[i].value);
        OwnerEdgeOverTable(start.value, t, ids, keys, i);
      }
    }
  }

  lemma {:induction false} SomeKeyHeld(ids: seq<Key>, keys: seq<Option<Key>>) returns (k: nat)
    requires ids != [] && FirstOccurrences(ids, keys, |keys|)
    ensures k < |keys| && keys[k].Some?
  {
    FirstOccurrencesOnce(ids, keys, |keys|);
    assert ids[0] in ids;
    k :| k < |keys| && keys[k] == Some(ids[0]);
  }
}
