// The loaders behind eager loading: one batch query per edge, joined in memory through a map,
// with the edges of the parent objects filled in place.
module EagerLoad {
  import opened Wrappers

  // Ids and foreign keys are strings that the loaders only ever compare; they are numbered here,
  // the empty string being 0.
  type Key = nat
  const EMPTY: Key := 0

  // Columns by number; ID is the primary key of every table.
  type Column = nat
  const ID: Column := 0

  /** The non-null cells of a row. */
  type Row = map<Column, Key>

  /** A key field of an entity decoded through a column list: empty unless selected. */
  function Text(row: Row, columns: seq<Column>, c: Column): Key
  {
    if c in columns && c in row then row[c] else EMPTY
  }

  /** The same for a field that may be nil. */
  function NullableText(row: Row, columns: seq<Column>, c: Column): Option<Key>
  {
    if c in columns && c in row then Some(row[c]) else None
  }

  datatype Error =
    | UnexpectedForeignKey(fk: Key)
    | QueryFailed(code: nat)

  // ---------------------------------------------------------------------------------------
  // Columns
  // ---------------------------------------------------------------------------------------

  function Without(fields: seq<Column>, c: Column): seq<Column>
  {
    if fields == [] then []
    else if fields[|fields| - 1] == c then Without(fields[..|fields| - 1], c)
    else Without(fields[..|fields| - 1], c) + [fields[|fields| - 1]]
  }

  /** AppendFieldOnce and AddColumnOnce */
  function AddOnce(columns: seq<Column>, c: Column): seq<Column>
  {
    if c in columns then columns else columns + [c]
  }

  /** The column is there afterwards, once more only if it was not there before, and last. */
  lemma {:induction false} AddOnceIs(columns: seq<Column>, c: Column)
    ensures c in AddOnce(columns, c) && columns <= AddOnce(columns, c)
    ensures |AddOnce(columns, c)| == if c in columns then |columns| else |columns| + 1
  {
  }

  /** The columns that a query reads: all of its table, or the selected ones with the primary
      key in front, and the foreign key if an edge needs it. */
  function ColumnsOf(table: seq<Column>, fields: seq<Column>, needed: Option<Column>): seq<Column>
  {
    if fields == [] then table
    else if needed.None? then [ID] + Without(fields, ID)
    else AddOnce([ID] + Without(fields, ID), needed.value)
  }

  /** The column part of querySpec. */
  method SpecColumns(table: seq<Column>, fields: seq<Column>, needed: Option<Column>) returns (columns: seq<Column>)
    ensures columns == ColumnsOf(table, fields, needed)
  {
    columns := table;
    if |fields| > 0 {
      columns := [ID];
      for i := 0 to |fields|
        invariant columns == [ID] + Without(fields[..i], ID)
      {
        assert fields[..i + 1][..i] == fields[..i];
        if fields[i] != ID {
          columns := columns + [fields[i]];
        }
      }
      assert fields[..|fields|] == fields;
      if needed.Some? {
        columns := AddOnce(columns, needed.value);
      }
    }
  }

  lemma {:induction false} WithoutReads(fields: seq<Column>, c: Column, x: Column)
    ensures x in Without(fields, c) <==> x in fields && x != c
  {
    if fields != [] {
      var init := fields[..|fields| - 1];
      WithoutReads(init, c, x);
      assert fields == init + [fields[|fields| - 1]];
    }
  }

  /** A column list has a column exactly once. */
  predicate Once(columns: seq<Column>, c: Column)
  {
    exists p :: 0 <= p < |columns| && columns[p] == c && forall q :: 0 <= q < |columns| && columns[q] == c ==> q == p
  }

  /** However columns are selected, repeats included: the primary key is read exactly once, what
      was selected is read, so is the foreign key that an edge needs, and nothing else; and without
      a selection all columns of the table are read. */
  lemma {:induction false} ColumnsSuffice(table: seq<Column>, fields: seq<Column>, needed: Option<Column>)
    requires Once(table, ID) && (needed.Some? ==> needed.value in table && needed.value != ID)
    ensures var columns := ColumnsOf(table, fields, needed);
      && Once(columns, ID)
      && (needed.Some? ==> needed.value in columns)
      && (forall c <- fields :: c in columns)
      && (fields == [] ==> columns == table)
      && (fields != [] ==> columns[0] == ID && forall c <- columns :: c == ID || c in fields || needed == Some(c))
  {
    if fields != [] {
      var columns := ColumnsOf(table, fields, needed);
      forall c ensures c in Without(fields, ID) <==> c in fields && c != ID {
        WithoutReads(fields, ID, c);
      }
      var own := [ID] + Without(fields, ID);
      forall q | 1 <= q < |columns| ensures columns[q] != ID {
        assert q < |own| ==> own[q] in Without(fields, ID);
      }
      assert columns[0] == ID;
      assert forall c <- Without(fields, ID) :: c in own;
      assert forall c <- own :: c in columns;
    }
  }

  // ---------------------------------------------------------------------------------------
  // The two sides of a join
  // ---------------------------------------------------------------------------------------

  /** An entity that a batch query brought back. Loaders never write to one, so it is a value;
      its place in the result tells it from every other entity of the result. */
  datatype Neighbor = Neighbor(place: nat, row: Row, id: Key, fk: Key)

  /** A query for the other side of an edge. `fetch` is the database together with everything
      else that was asked of the query: given the id lists of all the IN predicates added so
      far, the rows it comes back with. */
  class SubQuery {
    const edge: nat                        // the edge it loads, which is to say its type
    const table: seq<Column>
    const fkColumn: Column
    const fetch: seq<seq<Key>> -> Result<seq<Row>, Error>
    var fields: seq<Column>
    var filters: seq<seq<Key>>

    constructor (edge: nat, table: seq<Column>, fkColumn: Column, fields: seq<Column>,
                 fetch: seq<seq<Key>> -> Result<seq<Row>, Error>)
      ensures this.edge == edge && this.table == table && this.fkColumn == fkColumn && this.fetch == fetch
      ensures this.fields == fields && filters == []
    {
      this.edge, this.table, this.fkColumn, this.fetch := edge, table, fkColumn, fetch;
      this.fields, filters := fields, [];
    }

    method WhereIn(ids: seq<Key>)
      modifies this`filters
      ensures filters == old(filters) + [ids]
    {
      filters := filters + [ids];
    }

    /** All: one entity for each row, in the order of the rows. */
    method All() returns (r: Result<seq<Neighbor>, Error>)
      ensures r == if fetch(filters).Err? then Err(fetch(filters).error)
                   else Ok(Decode(fetch(filters).value, ColumnsOf(table, fields, None), fkColumn))
    {
      var columns := SpecColumns(table, fields, None);
      var rows := fetch(filters);
      if rows.Err? {
        return Err(rows.error);
      }
      var neighbors: seq<Neighbor> := [];
      for i := 0 to |rows.value|
        invariant |neighbors| == i
        invariant forall k :: 0 <= k < i ==> neighbors[k] == DecodeOne(rows.value, k, columns, fkColumn)
      {
        neighbors := neighbors + [DecodeOne(rows.value, i, columns, fkColumn)];
      }
      assert neighbors == Decode(rows.value, columns, fkColumn);
      r := Ok(neighbors);
    }

    /** What a one-to-many loader asks: the rows that refer to the ids, foreign key included. */
    method AllReferring(ids: seq<Key>) returns (r: Result<seq<Neighbor>, Error>)
      modifies this
      ensures filters == old(filters) + [ids]
      ensures fields == if old(fields) == [] then [] else AddOnce(old(fields), fkColumn)
      ensures r == if fetch(filters).Err? then Err(fetch(filters).error)
                   else Ok(Decode(fetch(filters).value, ColumnsOf(table, fields, None), fkColumn))
    {
      if |fields| > 0 {
        fields := AddOnce(fields, fkColumn);
      }
      WhereIn(ids);
      r := All();
    }
  }

  function DecodeOne(rows: seq<Row>, i: nat, columns: seq<Column>, fkColumn: Column): Neighbor
    requires i < |rows|
  {
    Neighbor(i, rows[i], Text(rows[i], columns, ID), Text(rows[i], columns, fkColumn))
  }

  function Decode(rows: seq<Row>, columns: seq<Column>, fkColumn: Column): seq<Neighbor>
  {
    seq(|rows|, i requires 0 <= i < |rows| => DecodeOne(rows, i, columns, fkColumn))
  }

  /** A parent: what the loaders read of it and the edges they fill. */
  class Node {
    ghost const place: nat                 // where it stands in its result
    var id: Key
    var key: Option<Key>                   // its own foreign key, nil if it is a nullable one
    var owner: Option<Neighbor>
    var lists: map<nat, seq<Neighbor>>     // a list edge that is absent is a nil slice
    var loadedTypes: seq<bool>

    constructor (ghost place: nat, id: Key, key: Option<Key>, loadedTypes: seq<bool>)
      ensures this.place == place && this.id == id && this.key == key && this.loadedTypes == loadedTypes
      ensures owner == None && lists == map[]
    {
      this.place := place;
      this.id, this.key, this.loadedTypes, owner, lists := id, key, loadedTypes, None, map[];
    }
  }

  /** No object occurs twice. */
  ghost predicate DistinctNodes(nodes: seq<Node>)
  {
    forall i :: 0 <= i < |nodes| ==> nodes[i].place == i
  }

  ghost function Ids(nodes: seq<Node>): (ids: seq<Key>)
    reads nodes`id
    ensures |ids| == |nodes| && forall i :: 0 <= i < |ids| ==> ids[i] == nodes[i].id
  {
    if nodes == [] then [] else Ids(nodes[..|nodes| - 1]) + [nodes[|nodes| - 1].id]
  }

  ghost function Keys(nodes: seq<Node>): (keys: seq<Option<Key>>)
    reads nodes`key
    ensures |keys| == |nodes| && forall i :: 0 <= i < |keys| ==> keys[i] == nodes[i].key
  {
    if nodes == [] then [] else Keys(nodes[..|nodes| - 1]) + [nodes[|nodes| - 1].key]
  }

  // ---------------------------------------------------------------------------------------
  // One-to-many
  // ---------------------------------------------------------------------------------------

  /** How many of the first k neighbors have a foreign key. */
  function Count(ns: seq<Neighbor>, k: nat, fk: Key): nat
    requires k <= |ns|
  {
    if k == 0 then 0 else Count(ns, k - 1, fk) + if ns[k - 1].fk == fk then 1 else 0
  }

  /** The list holds, of the first k neighbors, those with the foreign key, in the order in which
      they came: as many of them, each behind those that came before it. */
  ghost predicate Lists(list: seq<Neighbor>, ns: seq<Neighbor>, k: nat, fk: Key)
    requires k <= |ns|
  {
    && |list| == Count(ns, k, fk)
    && forall x :: 0 <= x < k && ns[x].fk == fk ==> Count(ns, x, fk) < |list| && list[Count(ns, x, fk)] == ns[x]
  }

  /** The last of the first n places that holds an id, or -1. */
  function LastPlace(ids: seq<Key>, n: nat, id: Key): (p: int)
    requires n <= |ids|
    ensures -1 <= p < n
  {
    if n == 0 then -1 else if ids[n - 1] == id then n - 1 else LastPlace(ids, n - 1, id)
  }

  /** What parent i holds once k neighbors are attached: those that refer to it, or none if its
      id comes up again further on. */
  ghost predicate Attached(list: seq<Neighbor>, ids: seq<Key>, i: nat, ns: seq<Neighbor>, k: nat)
    requires i < |ids| && k <= |ns|
  {
    if LastPlace(ids, |ids|, ids[i]) == i then Lists(list, ns, k, ids[i]) else |list| == 0
  }

  lemma {:induction false} LastPlaceIs(ids: seq<Key>, n: nat, id: Key)
    requires n <= |ids|
    ensures LastPlace(ids, n, id) >= 0 <==> id in ids[..n]
    ensures LastPlace(ids, n, id) >= 0 ==> ids[LastPlace(ids, n, id)] == id
    ensures forall k :: LastPlace(ids, n, id) < k < n ==> ids[k] != id
  {
    if n > 0 {
      LastPlaceIs(ids, n - 1, id);
      assert ids[..n] == ids[..n - 1] + [ids[n - 1]];
    }
  }

  /** Only edge e may differ, and it is not nil. */
  ghost predicate Only(now: map<nat, seq<Neighbor>>, before: map<nat, seq<Neighbor>>, e: nat)
  {
    && e in now
    && forall x :: x != e ==> if x in before then x in now && now[x] == before[x] else x !in now
  }

  /** The map of a one-to-many loader: every id leads to the last parent that has it. */
  ghost predicate Indexes(nodeids: map<Key, Node>, nodes: seq<Node>, ids: seq<Key>, n: nat)
    requires n <= |ids| == |nodes|
  {
    forall x {:trigger x in nodeids} ::
      if x in nodeids then LastPlace(ids, n, x) >= 0 && nodeids[x] == nodes[LastPlace(ids, n, x)]
      else LastPlace(ids, n, x) == -1
  }

  /** The first loop: collect ids, fill the map, initialize the lists. */
  method IndexNodes(nodes: seq<Node>, e: nat) returns (fks: seq<Key>, nodeids: map<Key, Node>)
    requires DistinctNodes(nodes)
    modifies nodes`lists
    ensures fks == Ids(nodes) && Indexes(nodeids, nodes, fks, |fks|)
    ensures Joined(nodes, old(AllLists(nodes)), fks, e, [], 0)
  {
    ghost var ids := Ids(nodes);
    fks, nodeids := [], map[];
    for i := 0 to |nodes|
      invariant fks == ids[..i] && Indexes(nodeids, nodes, ids, i)
      invariant forall k :: 0 <= k < i ==> Only(nodes[k].lists, old(nodes[k].lists), e) && nodes[k].lists[e] == []
      invariant forall k :: i <= k < |nodes| ==> nodes[k].lists == old(nodes[k].lists)
    {
      fks := fks + [nodes[i].id];
      nodeids := nodeids[nodes[i].id := nodes[i]];
      nodes[i].lists := nodes[i].lists[e := []];
    }
  }

  /** Edge e of every parent holds what is attached to it, the other edges what `start` says. */
  ghost predicate Joined(nodes: seq<Node>, start: seq<map<nat, seq<Neighbor>>>, ids: seq<Key>, e: nat,
                         ns: seq<Neighbor>, k: nat)
    reads nodes`lists
  {
    && |start| == |ids| == |nodes| && k <= |ns|
    && forall i :: 0 <= i < |nodes| ==> 
         Only(nodes[i].lists, start[i], e) && Attached(nodes[i].lists[e], ids, i, ns, k)
  }

  ghost function AllLists(nodes: seq<Node>): (lists: seq<map<nat, seq<Neighbor>>>)
    reads nodes`lists
    ensures |lists| == |nodes| && forall i :: 0 <= i < |nodes| ==> lists[i] == nodes[i].lists
  {
    if nodes == [] then [] else AllLists(nodes[..|nodes| - 1]) + [nodes[|nodes| - 1].lists]
  }

  /** A foreign key is some parent's id. */
  predicate Known(ids: seq<Key>, n: Neighbor)
  {
    LastPlace(ids, |ids|, n.fk) >= 0
  }

  lemma {:induction false} AttachStep(list: seq<Neighbor>, ids: seq<Key>, i: nat, ns: seq<Neighbor>, k: nat)
    requires i < |ids| && k < |ns| && Attached(list, ids, i, ns, k)
    ensures Attached(if LastPlace(ids, |ids|, ns[k].fk) == i then list + [ns[k]] else list, ids, i, ns, k + 1)
  {
    LastPlaceIs(ids, |ids|, ns[k].fk);
  }

  /** assign: the neighbor goes to the parent that the map leads to. */
  method AttachOne(nodes: seq<Node>, ghost start: seq<map<nat, seq<Neighbor>>>, ghost ids: seq<Key>, e: nat,
                   nodeids: map<Key, Node>, ns: seq<Neighbor>, j: nat) returns (known: bool)
    requires DistinctNodes(nodes) && |ids| == |nodes| && Indexes(nodeids, nodes, ids, |ids|)
    requires j < |ns| && Joined(nodes, start, ids, e, ns, j)
    modifies nodes`lists
    ensures known == Known(ids, ns[j])
    ensures Joined(nodes, start, ids, e, ns, if known then j + 1 else j)
  {
    known := ns[j].fk in nodeids;
    if !known {
      return;
    }
    var node := nodeids[ns[j].fk];
    label before:
    node.lists := node.lists[e := node.lists[e] + [ns[j]]];
    forall i | 0 <= i < |nodes|
      ensures Only(nodes[i].lists, start[i], e) && Attached(nodes[i].lists[e], ids, i, ns, j + 1)
    {
      AttachStep(old@before(nodes[i].lists)[e], ids, i, ns, j);
      if i != LastPlace(ids, |ids|, ns[j].fk) {
        assert nodes[i].place != node.place;
      }
    }
  }

  /** The second loop. */
  method AttachAll(nodes: seq<Node>, ghost start: seq<map<nat, seq<Neighbor>>>, ghost ids: seq<Key>, e: nat,
                   nodeids: map<Key, Node>, neighbors: seq<Neighbor>)
      returns (err: Option<Error>, ghost k: nat)
    requires DistinctNodes(nodes) && |ids| == |nodes| && Indexes(nodeids, nodes, ids, |ids|)
    requires Joined(nodes, start, ids, e, neighbors, 0)
    modifies nodes`lists
    ensures k <= |neighbors| && (forall j :: 0 <= j < k ==> Known(ids, neighbors[j]))
    ensures Joined(nodes, start, ids, e, neighbors, k)
    ensures if k == |neighbors| then err == None
      else !Known(ids, neighbors[k]) && err == Some(UnexpectedForeignKey(neighbors[k].fk))
  {
    k := 0;
    for j := 0 to |neighbors|
      invariant k == j
      invariant forall x :: 0 <= x < j ==> Known(ids, neighbors[x])
      invariant Joined(nodes, start, ids, e, neighbors, j)
    {
      var known := AttachOne(nodes, start, ids, e, nodeids, neighbors, j);
      if !known {
        err := Some(UnexpectedForeignKey(neighbors[j].fk));
        return;
      }
      k := j + 1;
    }
    err := None;
  }

  /** loadMappings and its siblings, for list edge e. On success every parent holds exactly what
      is attached to it. Of a result with a foreign key that is no parent's, exactly the part
      before it is attached; if the query itself fails, the lists are empty. */
  method LoadMany(nodes: seq<Node>, e: nat, query: SubQuery)
      returns (err: Option<Error>, ghost got: seq<Neighbor>, ghost k: nat)
    requires DistinctNodes(nodes)
    modifies nodes`lists, query
    ensures query.filters == old(query.filters) + [Ids(nodes)]
    ensures query.fields == if old(query.fields) == [] then [] else AddOnce(old(query.fields), query.fkColumn)
    ensures k <= |got| && (forall j :: 0 <= j < k ==> Known(Ids(nodes), got[j]))
    ensures Joined(nodes, old(AllLists(nodes)), Ids(nodes), e, got, k)
    ensures var answer := query.fetch(query.filters);
      if answer.Err? then err == Some(answer.error) && got == []
      else
        && got == Decode(answer.value, ColumnsOf(query.table, query.fields, None), query.fkColumn)
        && if k == |got| then err == None
           else !Known(Ids(nodes), got[k]) && err == Some(UnexpectedForeignKey(got[k].fk))
  {
    got, k := [], 0;
    var fks, nodeids := IndexNodes(nodes, e);
    var answer := query.AllReferring(fks);
    if answer.Err? {
      return Some(answer.error), [], 0;
    }
    got := answer.value;
    err, k := AttachAll(nodes, old(AllLists(nodes)), fks, e, nodeids, answer.value);
  }

  // ---------------------------------------------------------------------------------------
  // Many-to-one
  // ---------------------------------------------------------------------------------------

  /** The first of the first n places that holds a key, or n. */
  function FirstPlace(keys: seq<Option<Key>>, n: nat, x: Key): (p: nat)
    requires n <= |keys|
    ensures p <= n
  {
    if n == 0 then 0
    else if FirstPlace(keys, n - 1, x) < n - 1 then FirstPlace(keys, n - 1, x)
    else if keys[n - 1] == Some(x) then n - 1
    else n
  }

  /** Place i holds a key that no place before it holds. */
  predicate IsFirst(keys: seq<Option<Key>>, i: nat)
    requires i < |keys|
  {
    keys[i].Some? && FirstPlace(keys, i, keys[i].value) == i
  }

  function CountFirst(keys: seq<Option<Key>>, n: nat): nat
    requires n <= |keys|
  {
    if n == 0 then 0 else CountFirst(keys, n - 1) + if IsFirst(keys, n - 1) then 1 else 0
  }

  /** The keys among the first n, each once, in the order of first occurrence. */
  ghost predicate FirstOccurrences(ids: seq<Key>, keys: seq<Option<Key>>, n: nat)
    requires n <= |keys|
  {
    && |ids| == CountFirst(keys, n)
    && forall i :: 0 <= i < n && IsFirst(keys, i) ==>
         CountFirst(keys, i) < |ids| && ids[CountFirst(keys, i)] == keys[i].value
  }

  /** Some parent holds the key. */
  predicate Held(keys: seq<Option<Key>>, n: nat, x: Key)
    requires n <= |keys|
  {
    FirstPlace(keys, n, x) < n
  }

  lemma {:induction false} FirstPlaceIs(keys: seq<Option<Key>>, n: nat, x: Key)
    requires n <= |keys|
    ensures FirstPlace(keys, n, x) < n ==> keys[FirstPlace(keys, n, x)] == Some(x)
    ensures forall i :: 0 <= i < FirstPlace(keys, n, x) ==> keys[i] != Some(x)
    ensures forall i :: FirstPlace(keys, n, x) < i <= n ==> FirstPlace(keys, i, x) == FirstPlace(keys, n, x)
  {
    if n > 0 {
      FirstPlaceIs(keys, n - 1, x);
    }
  }

  lemma {:induction false} CountFirstGrows(keys: seq<Option<Key>>, i: nat, k: nat)
    requires i < k <= |keys| && IsFirst(keys, i)
    ensures CountFirst(keys, i) < CountFirst(keys, k)
  {
    if i < k - 1 {
      CountFirstGrows(keys, i, k - 1);
    }
  }

  /** Every entry of the list comes from the place where its key first occurs. */
  lemma {:induction false} Source(keys: seq<Option<Key>>, n: nat, a: nat) returns (i: nat)
    requires n <= |keys| && a < CountFirst(keys, n)
    ensures i < n && IsFirst(keys, i) && CountFirst(keys, i) == a
  {
    if a == CountFirst(keys, n - 1) {
      i := n - 1;
    } else {
      i := Source(keys, n - 1, a);
    }
  }

  /** The list of first occurrences has no duplicates and contains exactly the keys held. */
  lemma {:induction false} FirstOccurrencesOnce(ids: seq<Key>, keys: seq<Option<Key>>, n: nat)
    requires n <= |keys| && FirstOccurrences(ids, keys, n)
    ensures forall a, b :: 0 <= a < b < |ids| ==> ids[a] != ids[b]
    ensures forall x: Key :: x in ids <==> Held(keys, n, x)
    ensures forall x: Key :: Held(keys, n, x) <==> exists i :: 0 <= i < n && keys[i] == Some(x)
  {
    forall a, b | 0 <= a < b < |ids| ensures ids[a] != ids[b] {
      var i := Source(keys, n, a);
      var k := Source(keys, n, b);
      FirstPlaceIs(keys, i, ids[a]);
      FirstPlaceIs(keys, k, ids[b]);
      if k < i {
        CountFirstGrows(keys, k, i);
      }
    }
    forall x: Key ensures x in ids <==> Held(keys, n, x) {
      var p := FirstPlace(keys, n, x);
      FirstPlaceIs(keys, n, x);
      if p < n {
        FirstPlaceIs(keys, p, x);
        assert ids[CountFirst(keys, p)] == x;
      }
      if x in ids {
        var a :| 0 <= a < |ids| && ids[a] == x;
        var i := Source(keys, n, a);
        assert keys[i] == Some(x);
      }
    }
    forall x: Key ensures Held(keys, n, x) <==> exists i :: 0 <= i < n && keys[i] == Some(x) {
      FirstPlaceIs(keys, n, x);
    }
  }

  /** The map of a many-to-one loader: every key leads to the parents that hold it. */
  ghost predicate Groups(nodeids: map<Key, seq<Node>>, nodes: seq<Node>, keys: seq<Option<Key>>, n: nat)
    requires n <= |keys| == |nodes|
  {
    && (forall x :: x in nodeids <==> Held(keys, n, x))
    && (forall x, g {:trigger g in nodeids[x]} :: x in nodeids && g in nodeids[x] ==>
          g.place < n && nodes[g.place] == g && keys[g.place] == Some(x))
    && (forall i :: 0 <= i < n && keys[i].Some? ==> keys[i].value in nodeids && nodes[i] in nodeids[keys[i].value])
  }

  lemma {:induction false} GroupsStep(nodeids: map<Key, seq<Node>>, nodes: seq<Node>, keys: seq<Option<Key>>, n: nat)
    requires n < |keys| == |nodes| && Groups(nodeids, nodes, keys, n) && nodes[n].place == n
    ensures keys[n].None? ==> Groups(nodeids, nodes, keys, n + 1)
    ensures keys[n].Some? ==>
      var fk := keys[n].value;
      && (IsFirst(keys, n) <==> fk !in nodeids)
      && Groups(nodeids[fk := if fk in nodeids then nodeids[fk] + [nodes[n]] else [nodes[n]]], nodes, keys, n + 1)
  {
  }

  /** The first loop: collect the ids to ask for and group the parents by key. */
  method GroupNodes(nodes: seq<Node>) returns (ids: seq<Key>, nodeids: map<Key, seq<Node>>)
    requires DistinctNodes(nodes)
    ensures FirstOccurrences(ids, Keys(nodes), |nodes|)
    ensures Groups(nodeids, nodes, Keys(nodes), |nodes|)
  {
    ghost var keys := Keys(nodes);
    ids, nodeids := [], map[];
    for i := 0 to |nodes|
      invariant FirstOccurrences(ids, keys, i)
      invariant Groups(nodeids, nodes, keys, i)
    {
      ids, nodeids := GroupOne(nodes, keys, i, ids, nodeids);
    }
  }

  method GroupOne(nodes: seq<Node>, ghost keys: seq<Option<Key>>, i: nat, ids: seq<Key>, nodeids: map<Key, seq<Node>>)
      returns (ids': seq<Key>, nodeids': map<Key, seq<Node>>)
    requires i < |nodes| && DistinctNodes(nodes) && keys == Keys(nodes)
    requires FirstOccurrences(ids, keys, i) && Groups(nodeids, nodes, keys, i)
    ensures FirstOccurrences(ids', keys, i + 1) && Groups(nodeids', nodes, keys, i + 1)
  {
    ids', nodeids' := ids, nodeids;
    GroupsStep(nodeids, nodes, keys, i);
    if nodes[i].key.None? {
      return;
    }
    var fk := nodes[i].key.value;
    if fk !in nodeids {
      ids' := ids + [fk];
      nodeids' := nodeids[fk := [nodes[i]]];
    } else {
      nodeids' := nodeids[fk := nodeids[fk] + [nodes[i]]];
    }
  }

  /** The last of the first k neighbors with an id, or -1. */
  function LastWithId(ns: seq<Neighbor>, k: nat, id: Key): (p: int)
    requires k <= |ns|
    ensures -1 <= p < k
  {
    if k == 0 then -1 else if ns[k - 1].id == id then k - 1 else LastWithId(ns, k - 1, id)
  }

  /** What the owner edge is once k neighbors are assigned. */
  function OwnerAfter(before: Option<Neighbor>, key: Option<Key>, ns: seq<Neighbor>, k: nat): Option<Neighbor>
    requires k <= |ns|
  {
    if key.None? || LastWithId(ns, k, key.value) < 0 then before else Some(ns[LastWithId(ns, k, key.value)])
  }

  method AssignGroup(group: seq<Node>, n: Neighbor)
    modifies group`owner
    ensures forall g <- group :: g.owner == Some(n)
  {
    for i := 0 to |group|
      invariant forall k :: 0 <= k < i ==> group[k].owner == Some(n)
    {
      group[i].owner := Some(n);
    }
  }

  ghost predicate Owned(nodes: seq<Node>, keys: seq<Option<Key>>, before: seq<Option<Neighbor>>, ns: seq<Neighbor>,
                        k: nat)
    reads nodes`owner
  {
    && |nodes| == |keys| == |before| && k <= |ns|
    && forall i :: 0 <= i < |nodes| ==> nodes[i].owner == OwnerAfter(before[i], keys[i], ns, k)
  }

  ghost function Owners(nodes: seq<Node>): (owners: seq<Option<Neighbor>>)
    reads nodes`owner
    ensures |owners| == |nodes| && forall i :: 0 <= i < |nodes| ==> owners[i] == nodes[i].owner
  {
    if nodes == [] then [] else Owners(nodes[..|nodes| - 1]) + [nodes[|nodes| - 1].owner]
  }

  /** One neighbor, assigned to every parent that the map has for its id. */
  method AssignOne(nodes: seq<Node>, ghost keys: seq<Option<Key>>, ghost before: seq<Option<Neighbor>>,
                   nodeids: map<Key, seq<Node>>, ns: seq<Neighbor>, j: nat) returns (known: bool)
    requires DistinctNodes(nodes) && |keys| == |nodes| && Groups(nodeids, nodes, keys, |nodes|)
    requires j < |ns| && Owned(nodes, keys, before, ns, j)
    modifies nodes`owner
    ensures known == Held(keys, |keys|, ns[j].id)
    ensures known ==> Owned(nodes, keys, before, ns, j + 1)
    ensures !known ==> Owned(nodes, keys, before, ns, j)
  {
    known := ns[j].id in nodeids;
    if !known {
      return;
    }
    var n, group := ns[j], nodeids[ns[j].id];
    forall g: Node | g in group ensures g in nodes {
      assert g in nodeids[n.id];
      assert nodes[g.place] == g;
    }
    assert forall x :: 0 <= x < |group| ==> group[x] in nodes;
    AssignGroup(group, n);
    forall i | 0 <= i < |nodes|
      ensures nodes[i].owner == OwnerAfter(before[i], keys[i], ns, j + 1)
    {
      if nodes[i] in group {
        assert nodes[i] in nodeids[n.id];
      }
    }
  }

  /** The second loop. */
  method AssignAll(nodes: seq<Node>, ghost keys: seq<Option<Key>>, ghost before: seq<Option<Neighbor>>,
                   nodeids: map<Key, seq<Node>>, neighbors: seq<Neighbor>)
      returns (err: Option<Error>, ghost k: nat)
    requires DistinctNodes(nodes) && |keys| == |nodes| && Groups(nodeids, nodes, keys, |nodes|)
    requires Owned(nodes, keys, before, neighbors, 0)
    modifies nodes`owner
    ensures k <= |neighbors| && Owned(nodes, keys, before, neighbors, k)
    ensures forall j :: 0 <= j < k ==> Held(keys, |keys|, neighbors[j].id)
    ensures if k == |neighbors| then err == None
      else !Held(keys, |keys|, neighbors[k].id) && err == Some(UnexpectedForeignKey(neighbors[k].id))
  {
    k, err := 0, None;
    for j := 0 to |neighbors|
      invariant k == j && err == None && Owned(nodes, keys, before, neighbors, j)
      invariant forall x :: 0 <= x < j ==> Held(keys, |keys|, neighbors[x].id)
    {
      var known := AssignOne(nodes, keys, before, nodeids, neighbors, j);
      if !known {
        err := Some(UnexpectedForeignKey(neighbors[j].id));
        return;
      }
      k := j + 1;
    }
  }

  /** loadOwner, and with nullable keys loadUser. The query is asked for each key once; on success
      every parent whose key has a row points to the last such row, so that parents with one key
      share one entity, and the others keep what they had. Without any key nothing is asked. */
  method LoadOne(nodes: seq<Node>, query: SubQuery)
      returns (err: Option<Error>, ghost ids: seq<Key>, ghost got: seq<Neighbor>, ghost k: nat)
    requires DistinctNodes(nodes)
    modifies nodes`owner, query`filters
    ensures FirstOccurrences(ids, Keys(nodes), |nodes|)
    ensures query.filters == if ids == [] then old(query.filters) else old(query.filters) + [ids]
    ensures Owned(nodes, Keys(nodes), old(Owners(nodes)), got, k)
    ensures forall j :: 0 <= j < k ==> Held(Keys(nodes), |nodes|, got[j].id)
    ensures
      if ids == [] then err == None && got == []
      else if query.fetch(query.filters).Err? then err == Some(query.fetch(query.filters).error) && got == []
      else
        && got == Decode(query.fetch(query.filters).value, ColumnsOf(query.table, query.fields, None), query.fkColumn)
        && if k == |got| then err == None
           else !Held(Keys(nodes), |nodes|, got[k].id) && err == Some(UnexpectedForeignKey(got[k].id))
  {
    got, k := [], 0;
    var asked, nodeids := GroupNodes(nodes);
    ids := asked;
    if |asked| == 0 {
      return None, ids, got, k;
    }
    query.WhereIn(asked);
    var answer := query.All();
    if answer.Err? {
      return Some(answer.error), ids, got, k;
    }
    got := answer.value;
    err, k := AssignAll(nodes, Keys(nodes), old(Owners(nodes)), nodeids, answer.value);
  }
}
