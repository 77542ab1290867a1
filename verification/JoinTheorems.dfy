// What the loaders amount to: the nested-loop join of two tables, whatever columns are selected.
module JoinTheorems {
  import opened Wrappers
  import opened EagerLoad

  // ---------------------------------------------------------------------------------------
  // Lists and their neighbors
  // ---------------------------------------------------------------------------------------

  /** The neighbors that refer to a key, found by going through all of them. */
  function Refs(ns: seq<Neighbor>, k: nat, fk: Key): seq<Neighbor>
    requires k <= |ns|
  {
    if k == 0 then []
    else if ns[k - 1].fk == fk then Refs(ns, k - 1, fk) + [ns[k - 1]]
    else Refs(ns, k - 1, fk)
  }

  /** A loader's list holds what that search finds, and nothing else does. */
  lemma {:induction false} ListIsRefs(list: seq<Neighbor>, ns: seq<Neighbor>, k: nat, fk: Key)
    requires k <= |ns|
    ensures Lists(list, ns, k, fk) <==> list == Refs(ns, k, fk)
  {
    if k > 0 {
      if ns[k - 1].fk != fk {
        ListIsRefs(list, ns, k - 1, fk);
      } else if list != [] {
        var init := list[..|list| - 1];
        ListIsRefs(init, ns, k - 1, fk);
        assert list == init + [list[|list| - 1]];
        if Lists(list, ns, k, fk) {
          forall x | 0 <= x < k - 1 && ns[x].fk == fk
            ensures Count(ns, x, fk) < |init| && init[Count(ns, x, fk)] == ns[x]
          {
            CountGrows(ns, x, k - 1, fk);
          }
          assert list[Count(ns, k - 1, fk)] == ns[k - 1];
        }
        if list == Refs(ns, k, fk) {
          assert init == Refs(ns, k - 1, fk);
        }
      }
    }
  }

  lemma {:induction false} CountGrows(ns: seq<Neighbor>, x: nat, k: nat, fk: Key)
    requires x < k <= |ns| && ns[x].fk == fk
    ensures Count(ns, x, fk) < Count(ns, k, fk)
  {
    if x < k - 1 {
      CountGrows(ns, x, k - 1, fk);
    }
  }

  /** The lengths of the first m lists together. */
  function Total(lists: seq<seq<Neighbor>>, m: nat): nat
    requires m <= |lists|
  {
    if m == 0 then 0 else Total(lists, m - 1) + |lists[m - 1]|
  }

  function Expected(ids: seq<Key>, ns: seq<Neighbor>, k: nat, m: nat): nat
    requires m <= |ids| && k <= |ns|
  {
    if m == 0 then 0
    else
      Expected(ids, ns, k, m - 1) +
      if LastPlace(ids, |ids|, ids[m - 1]) == m - 1 then Count(ns, k, ids[m - 1]) else 0
  }

  lemma {:induction false} ExpectedStep(ids: seq<Key>, ns: seq<Neighbor>, k: nat, m: nat)
    requires m <= |ids| && k < |ns|
    ensures Expected(ids, ns, k + 1, m) ==
            Expected(ids, ns, k, m) + if 0 <= LastPlace(ids, |ids|, ns[k].fk) < m then 1 else 0
  {
    if m > 0 {
      ExpectedStep(ids, ns, k, m - 1);
      LastPlaceIs(ids, |ids|, ns[k].fk);
    }
  }

  lemma {:induction false} ExpectedAll(ids: seq<Key>, ns: seq<Neighbor>, k: nat)
    requires k <= |ns| && forall j :: 0 <= j < k ==> Known(ids, ns[j])
    ensures Expected(ids, ns, k, |ids|) == k
  {
    if k == 0 {
      ExpectedNone(ids, ns, |ids|);
    } else {
      ExpectedAll(ids, ns, k - 1);
      ExpectedStep(ids, ns, k - 1, |ids|);
    }
  }

  lemma {:induction false} ExpectedNone(ids: seq<Key>, ns: seq<Neighbor>, m: nat)
    requires m <= |ids|
    ensures Expected(ids, ns, 0, m) == 0
  {
    if m > 0 {
      ExpectedNone(ids, ns, m - 1);
    }
  }

  lemma {:induction false} TotalIsExpected(lists: seq<seq<Neighbor>>, ids: seq<Key>, ns: seq<Neighbor>, k: nat, m: nat)
    requires k <= |ns| && |lists| == |ids| && m <= |ids|
    requires forall i :: 0 <= i < |ids| ==> Attached(lists[i], ids, i, ns, k)
    ensures Total(lists, m) == Expected(ids, ns, k, m)
  {
    if m > 0 {
      TotalIsExpected(lists, ids, ns, k, m - 1);
    }
  }

  /** Nothing is lost and nothing is doubled, with repeated parents too: the lists hold as many
      neighbors as were attached, and each of those is in the list of one parent only, the last
      one that has its key for an id. */
  lemma {:induction false} Conservation(lists: seq<seq<Neighbor>>, ids: seq<Key>, ns: seq<Neighbor>, k: nat)
    requires k <= |ns| && |lists| == |ids| && forall j :: 0 <= j < k ==> Known(ids, ns[j])
    requires forall i :: 0 <= i < |ids| ==> Attached(lists[i], ids, i, ns, k)
    ensures Total(lists, |lists|) == k
    ensures forall i, j :: 0 <= i < |ids| && 0 <= j < k ==>
      (ns[j] in lists[i] <==> i == LastPlace(ids, |ids|, ns[j].fk))
  {
    TotalIsExpected(lists, ids, ns, k, |ids|);
    ExpectedAll(ids, ns, k);
    forall i, j | 0 <= i < |ids| && 0 <= j < k
      ensures ns[j] in lists[i] <==> i == LastPlace(ids, |ids|, ns[j].fk)
    {
      LastPlaceIs(ids, |ids|, ns[j].fk);
      if LastPlace(ids, |ids|, ids[i]) == i {
        ListIsRefs(lists[i], ns, k, ids[i]);
        RefsMembers(ns, k, ids[i], ns[j]);
      }
    }
  }

  lemma {:induction false} RefsMembers(ns: seq<Neighbor>, k: nat, fk: Key, n: Neighbor)
    requires k <= |ns|
    ensures n in Refs(ns, k, fk) <==> n.fk == fk && n in ns[..k]
  {
    if k > 0 {
      RefsMembers(ns, k - 1, fk, n);
      assert ns[..k] == ns[..k - 1] + [ns[k - 1]];
    }
  }

  // ---------------------------------------------------------------------------------------
  // Tables
  // ---------------------------------------------------------------------------------------

  /** The rows that satisfy a predicate, in table order. */
  function Select(rows: seq<Row>, p: Row -> bool): seq<Row>
  {
    if rows == [] then []
    else if p(rows[|rows| - 1]) then Select(rows[..|rows| - 1], p) + [rows[|rows| - 1]]
    else Select(rows[..|rows| - 1], p)
  }

  /** The predicate column IN (ids), for every list of ids added to a query. */
  predicate Passes(row: Row, column: Column, filters: seq<seq<Key>>)
  {
    filters == [] || (column in row && forall f <- filters :: row[column] in f)
  }

  // Row predicates by name, so that equal ones are one function.

  function Kept(keep: Row -> bool, column: Column, filters: seq<seq<Key>>): Row -> bool
  {
    (r: Row) => keep(r) && Passes(r, column, filters)
  }

  function RefersTo(keep: Row -> bool, column: Column, id: Key): Row -> bool
  {
    (r: Row) => keep(r) && column in r && r[column] == id
  }

  function Reads(columns: seq<Column>, column: Column, x: Key): Row -> bool
  {
    (r: Row) => Text(r, columns, column) == x
  }

  function Both(p: Row -> bool, q: Row -> bool): Row -> bool
  {
    (r: Row) => p(r) && q(r)
  }

  /** The same rows as often, in some order. */
  predicate Permutation(a: seq<Row>, b: seq<Row>)
  {
    multiset(a) == multiset(b)
  }

  /** The contract of the database, for a query on the given rows that was narrowed by `keep`: it
      brings the rows that satisfy all predicates, in an order that it may choose for every
      question anew. */
  ghost predicate Honest(fetch: seq<seq<Key>> -> Result<seq<Row>, Error>, rows: seq<Row>, keep: Row -> bool,
                         column: Column)
  {
    forall filters :: fetch(filters).Ok? && Permutation(fetch(filters).value, Select(rows, Kept(keep, column, filters)))
  }

  /** The nested loop: the kept rows of the other table that refer to one parent. */
  function NestedLoop(rows: seq<Row>, keep: Row -> bool, column: Column, id: Key): seq<Row>
  {
    Select(rows, RefersTo(keep, column, id))
  }

  function RowsOf(ns: seq<Neighbor>): (rows: seq<Row>)
    ensures |rows| == |ns| && forall i :: 0 <= i < |rows| ==> rows[i] == ns[i].row
  {
    seq(|ns|, i requires 0 <= i < |ns| => ns[i].row)
  }

  lemma {:induction false} SelectTwice(rows: seq<Row>, p: Row -> bool, q: Row -> bool)
    ensures Select(Select(rows, p), q) == Select(rows, Both(p, q))
  {
    if rows != [] {
      var init, last := rows[..|rows| - 1], rows[|rows| - 1];
      SelectTwice(init, p, q);
      if p(last) {
        assert (Select(init, p) + [last])[..|Select(init, p)|] == Select(init, p);
      }
    }
  }

  lemma {:induction false} SelectSame(rows: seq<Row>, p: Row -> bool, q: Row -> bool)
    requires forall r :: p(r) <==> q(r)
    ensures Select(rows, p) == Select(rows, q)
  {
    if rows != [] {
      SelectSame(rows[..|rows| - 1], p, q);
    }
  }

  lemma {:induction false} SelectedPass(rows: seq<Row>, p: Row -> bool, i: nat)
    requires i < |Select(rows, p)|
    ensures p(Select(rows, p)[i])
  {
    if i < |Select(rows[..|rows| - 1], p)| {
      SelectedPass(rows[..|rows| - 1], p, i);
    }
  }

  lemma {:induction false} SelectCounts(rows: seq<Row>, p: Row -> bool, r: Row)
    ensures multiset(Select(rows, p))[r] == if p(r) then multiset(rows)[r] else 0
  {
    if rows != [] {
      var init, last := rows[..|rows| - 1], rows[|rows| - 1];
      SelectCounts(init, p, r);
      assert rows == init + [last];
    }
  }

  /** Selecting does not depend on the order. */
  lemma {:induction false} SelectPermutes(a: seq<Row>, b: seq<Row>, p: Row -> bool)
    requires Permutation(a, b)
    ensures Permutation(Select(a, p), Select(b, p))
  {
    forall r: Row ensures multiset(Select(a, p))[r] == multiset(Select(b, p))[r] {
      SelectCounts(a, p, r);
      SelectCounts(b, p, r);
    }
  }

  lemma {:induction false} EmptyPermutation(a: seq<Row>, b: seq<Row>)
    requires Permutation(a, b)
    ensures a == [] <==> b == []
    ensures forall r :: r in a <==> r in b
  {
    assert |multiset(a)| == |a| && |multiset(b)| == |b|;
    assert forall r :: r in a <==> r in multiset(a);
    assert forall r :: r in b <==> r in multiset(b);
  }

  /** Every row of an answer satisfies what was asked. */
  lemma {:induction false} AnswerPasses(found: seq<Row>, rows: seq<Row>, p: Row -> bool, i: nat)
    requires Permutation(found, Select(rows, p)) && i < |found|
    ensures p(found[i])
  {
    EmptyPermutation(found, Select(rows, p));
    assert found[i] in found;
    var k :| 0 <= k < |Select(rows, p)| && Select(rows, p)[k] == found[i];
    SelectedPass(rows, p, k);
  }

  lemma {:induction false} RefsOfDecoded(rows: seq<Row>, columns: seq<Column>, fkColumn: Column, k: nat, fk: Key)
    requires k <= |rows|
    ensures RowsOf(Refs(Decode(rows, columns, fkColumn), k, fk)) == Select(rows[..k], Reads(columns, fkColumn, fk))
  {
    if k > 0 {
      RefsOfDecoded(rows, columns, fkColumn, k - 1, fk);
      assert rows[..k][..k - 1] == rows[..k - 1];
    }
  }

  lemma {:induction false} SelectNone(rows: seq<Row>, p: Row -> bool)
    requires forall r :: !p(r)
    ensures Select(rows, p) == []
  {
    if rows != [] {
      SelectNone(rows[..|rows| - 1], p);
    }
  }

  /** What a list edge holds in the end, against an honest database and for any selection of
      columns that reads the foreign key: the result has no foreign key that is not a parent's,
      and the last parent with an id has exactly the rows that the nested loop finds for it, if
      the id passes the lists that were added to the query before; otherwise it has none. The
      rows stand in the order in which they came. */
  lemma {:induction false} ListEdgeIsJoin(fetch: seq<seq<Key>> -> Result<seq<Row>, Error>, fkColumn: Column,
                                          rows: seq<Row>, keep: Row -> bool, columns: seq<Column>,
                                          earlier: seq<seq<Key>>, ids: seq<Key>, i: nat, list: seq<Neighbor>)
    requires Honest(fetch, rows, keep, fkColumn) && fkColumn in columns && i < |ids|
    requires var answer := fetch(earlier + [ids]);
      answer.Ok? ==> var got := Decode(answer.value, columns, fkColumn); Attached(list, ids, i, got, |got|)
    ensures fetch(earlier + [ids]).Ok?
    ensures forall n <- Decode(fetch(earlier + [ids]).value, columns, fkColumn) :: Known(ids, n)
    ensures Permutation(
      RowsOf(list),
      if LastPlace(ids, |ids|, ids[i]) == i && (forall f <- earlier :: ids[i] in f) then
        NestedLoop(rows, keep, fkColumn, ids[i])
      else [])
    ensures RowsOf(list) ==
      if LastPlace(ids, |ids|, ids[i]) == i then
        Select(fetch(earlier + [ids]).value, Reads(columns, fkColumn, ids[i]))
      else []
  {
    var filters := earlier + [ids];
    var p, q := Kept(keep, fkColumn, filters), Reads(columns, fkColumn, ids[i]);
    var found := fetch(filters).value;
    var got := Decode(found, columns, fkColumn);
    forall n | n in got ensures Known(ids, n) {
      AnswersAreKnown(found, rows, keep, columns, fkColumn, earlier, ids, n);
    }
    if LastPlace(ids, |ids|, ids[i]) == i {
      ListIsRefs(list, got, |got|, ids[i]);
      RefsOfDecoded(found, columns, fkColumn, |found|, ids[i]);
      assert found[..|found|] == found;
      SelectPermutes(found, Select(rows, p), q);
      SelectTwice(rows, p, q);
      NarrowedToOne(rows, keep, columns, fkColumn, earlier, ids, ids[i]);
    }
  }

  lemma {:induction false} PassesBoth(r: Row, column: Column, earlier: seq<seq<Key>>, ids: seq<Key>, id: Key)
    requires id in ids
    ensures Passes(r, column, earlier + [ids]) ==> column in r
    ensures column in r && r[column] == id ==>
      (Passes(r, column, earlier + [ids]) <==> forall f <- earlier :: id in f)
  {
    var filters := earlier + [ids];
    assert filters[|earlier|] == ids;
    if column in r && r[column] == id && Passes(r, column, filters) {
      forall f | f in earlier ensures id in f {
        assert f in filters;
      }
    }
  }

  lemma {:induction false} AnswersAreKnown(found: seq<Row>, rows: seq<Row>, keep: Row -> bool, columns: seq<Column>,
                                           fkColumn: Column, earlier: seq<seq<Key>>, ids: seq<Key>, n: Neighbor)
    requires fkColumn in columns && Permutation(found, Select(rows, Kept(keep, fkColumn, earlier + [ids])))
    requires n in Decode(found, columns, fkColumn)
    ensures Known(ids, n)
  {
    var x :| 0 <= x < |found| && Decode(found, columns, fkColumn)[x] == n;
    AnswerPasses(found, rows, Kept(keep, fkColumn, earlier + [ids]), x);
    assert (earlier + [ids])[|earlier|] == ids;
    assert n.fk in ids;
    LastPlaceIs(ids, |ids|, n.fk);
    assert ids[..|ids|] == ids;
  }

  /** The first run of a query whose parents are distinct: every list is the nested loop's. */
  lemma {:induction false} FirstRunIsNestedLoop(fetch: seq<seq<Key>> -> Result<seq<Row>, Error>, fkColumn: Column,
                                                rows: seq<Row>, keep: Row -> bool, columns: seq<Column>,
                                                ids: seq<Key>, i: nat, list: seq<Neighbor>)
    requires Honest(fetch, rows, keep, fkColumn) && fkColumn in columns && i < |ids|
    requires forall a, b :: 0 <= a < b < |ids| ==> ids[a] != ids[b]
    requires var answer := fetch([ids]);
      answer.Ok? ==> var got := Decode(answer.value, columns, fkColumn); Attached(list, ids, i, got, |got|)
    ensures Permutation(RowsOf(list), NestedLoop(rows, keep, fkColumn, ids[i]))
  {
    assert [] + [ids] == [ids];
    LastPlaceIs(ids, |ids|, ids[i]);
    assert ids[..|ids|] == ids;
    ListEdgeIsJoin(fetch, fkColumn, rows, keep, columns, [], ids, i, list);
  }

  /** Running the query again narrows its eager-loading query a second time: the ids of the first
      run stay on it. A parent then has its full list exactly when the first run returned it
      too, or there is nothing to list. */
  lemma {:induction false} SecondRunIsNarrowed(fetch: seq<seq<Key>> -> Result<seq<Row>, Error>, fkColumn: Column,
                                               rows: seq<Row>, keep: Row -> bool, columns: seq<Column>,
                                               firstIds: seq<Key>, ids: seq<Key>, i: nat, list: seq<Neighbor>)
    requires Honest(fetch, rows, keep, fkColumn) && fkColumn in columns && i < |ids|
    requires forall a, b :: 0 <= a < b < |ids| ==> ids[a] != ids[b]
    requires var answer := fetch([firstIds, ids]);
      answer.Ok? ==> var got := Decode(answer.value, columns, fkColumn); Attached(list, ids, i, got, |got|)
    ensures Permutation(RowsOf(list), NestedLoop(rows, keep, fkColumn, ids[i])) <==>
            ids[i] in firstIds || NestedLoop(rows, keep, fkColumn, ids[i]) == []
  {
    assert [firstIds] + [ids] == [firstIds, ids];
    LastPlaceIs(ids, |ids|, ids[i]);
    assert ids[..|ids|] == ids;
    ListEdgeIsJoin(fetch, fkColumn, rows, keep, columns, [firstIds], ids, i, list);
    if ids[i] !in firstIds {
      EmptyPermutation(RowsOf(list), []);
      if Permutation(RowsOf(list), NestedLoop(rows, keep, fkColumn, ids[i])) {
        EmptyPermutation(RowsOf(list), NestedLoop(rows, keep, fkColumn, ids[i]));
      }
    }
  }

  // ---------------------------------------------------------------------------------------
  // Edge queries with a limit
  // ---------------------------------------------------------------------------------------

  /** The first n rows, or all. */
  function FirstRows(rows: seq<Row>, n: nat): seq<Row>
  {
    if n < |rows| then rows[..n] else rows
  }

  /** An answer cut off after n rows. */
  ghost predicate CutOff(answer: seq<Row>, full: seq<Row>, rows: seq<Row>, n: nat)
  {
    Permutation(full, rows) && answer == FirstRows(full, n)
  }

  /** The contract of the database for a query with a limit. */
  ghost predicate Limited(fetch: seq<seq<Key>> -> Result<seq<Row>, Error>, rows: seq<Row>, keep: Row -> bool,
                          column: Column, n: nat)
  {
    forall filters :: fetch(filters).Ok? &&
      exists full :: CutOff(fetch(filters).value, full, Select(rows, Kept(keep, column, filters)), n)
  }

  /** The rows of an answer that have one id are those of the nested loop. */
  lemma {:induction false} AnswerFor(found: seq<Row>, rows: seq<Row>, keep: Row -> bool, columns: seq<Column>,
                                     column: Column, ids: seq<Key>, id: Key)
    requires column in columns && id in ids && Permutation(found, Select(rows, Kept(keep, column, [ids])))
    ensures Permutation(Select(found, Reads(columns, column, id)), NestedLoop(rows, keep, column, id))
  {
    var p, q := Kept(keep, column, [ids]), Reads(columns, column, id);
    assert [] + [ids] == [ids];
    SelectPermutes(found, Select(rows, p), q);
    SelectTwice(rows, p, q);
    NarrowedToOne(rows, keep, columns, column, [], ids, id);
  }

  lemma {:induction false} RefsSize(ns: seq<Neighbor>, k: nat, fk: Key)
    requires k <= |ns|
    ensures |Refs(ns, k, fk)| == Count(ns, k, fk)
  {
    if k > 0 {
      RefsSize(ns, k - 1, fk);
    }
  }

  /** As many of the decoded rows refer to an id as are selected for it. */
  lemma {:induction false} CountIsSelected(found: seq<Row>, columns: seq<Column>, column: Column, id: Key)
    ensures var ns := Decode(found, columns, column); Count(ns, |ns|, id) == |Select(found, Reads(columns, column, id))|
  {
    var ns := Decode(found, columns, column);
    RefsSize(ns, |ns|, id);
    RefsOfDecoded(found, columns, column, |found|, id);
    assert found[..|found|] == found;
  }

  lemma {:induction false} ExpectedSame(ids: seq<Key>, ns: seq<Neighbor>, ns': seq<Neighbor>, m: nat)
    requires m <= |ids| && forall i :: 0 <= i < |ids| ==> Count(ns, |ns|, ids[i]) == Count(ns', |ns'|, ids[i])
    ensures Expected(ids, ns, |ns|, m) == Expected(ids, ns', |ns'|, m)
  {
    if m > 0 {
      ExpectedSame(ids, ns, ns', m - 1);
    }
  }

  lemma {:induction false} AllKnown(found: seq<Row>, full: seq<Row>, rows: seq<Row>, keep: Row -> bool,
                                    columns: seq<Column>, column: Column, ids: seq<Key>)
    requires column in columns && Permutation(full, Select(rows, Kept(keep, column, [ids])))
    requires |found| <= |full| && found == full[..|found|]
    ensures forall j :: 0 <= j < |found| ==> Known(ids, Decode(found, columns, column)[j])
  {
    assert [] + [ids] == [ids];
    forall j | 0 <= j < |found| ensures Known(ids, Decode(found, columns, column)[j]) {
      var n := Decode(full, columns, column)[j];
      assert n in Decode(full, columns, column);
      AnswersAreKnown(full, rows, keep, columns, column, [], ids, n);
    }
  }

  /** Answers with as many rows for every id have as many rows. */
  lemma {:induction false} SameSizes(found: seq<Row>, full: seq<Row>, rows: seq<Row>, keep: Row -> bool,
                                     columns: seq<Column>, column: Column, ids: seq<Key>)
    requires column in columns && Permutation(full, Select(rows, Kept(keep, column, [ids])))
    requires |found| <= |full| && found == full[..|found|]
    requires var ns, ns' := Decode(found, columns, column), Decode(full, columns, column);
      forall i :: 0 <= i < |ids| ==> Count(ns, |ns|, ids[i]) == Count(ns', |ns'|, ids[i])
    ensures |found| == |full|
  {
    var ns, ns' := Decode(found, columns, column), Decode(full, columns, column);
    AllKnown(found, full, rows, keep, columns, column, ids);
    assert full[..|full|] == full;
    AllKnown(full, full, rows, keep, columns, column, ids);
    ExpectedAll(ids, ns, |ns|);
    ExpectedAll(ids, ns', |ns'|);
    ExpectedSame(ids, ns, ns', |ids|);
  }

  lemma {:induction false} PermutationSize(a: seq<Row>, b: seq<Row>)
    requires Permutation(a, b)
    ensures |a| == |b|
  {
    assert |multiset(a)| == |a| && |multiset(b)| == |b|;
  }

  /** A limit on an edge query caps the children of all parents together. With a limit of n the
      lists are the nested loop's if and only if the parents have at most n children among them. */
  lemma {:induction false} LimitCapsAllParents(fetch: seq<seq<Key>> -> Result<seq<Row>, Error>, fkColumn: Column,
                                               rows: seq<Row>, keep: Row -> bool, columns: seq<Column>, n: nat,
                                               ids: seq<Key>, lists: seq<seq<Neighbor>>)
    requires Limited(fetch, rows, keep, fkColumn, n) && fkColumn in columns && |lists| == |ids|
    requires forall a, b :: 0 <= a < b < |ids| ==> ids[a] != ids[b]
    requires var answer := fetch([ids]);
      answer.Ok? ==>
        var got := Decode(answer.value, columns, fkColumn);
        forall i :: 0 <= i < |ids| ==> Attached(lists[i], ids, i, got, |got|)
    ensures (forall i :: 0 <= i < |ids| ==> Permutation(RowsOf(lists[i]), NestedLoop(rows, keep, fkColumn, ids[i])))
            <==> |Select(rows, Kept(keep, fkColumn, [ids]))| <= n
  {
    var selected, found := Select(rows, Kept(keep, fkColumn, [ids])), fetch([ids]).value;
    var full :| CutOff(found, full, selected, n);
    var got, all := Decode(found, columns, fkColumn), Decode(full, columns, fkColumn);
    PermutationSize(full, selected);
    assert found == full[..|found|];
    forall i | 0 <= i < |ids|
      ensures RowsOf(lists[i]) == Select(found, Reads(columns, fkColumn, ids[i]))
      ensures |lists[i]| == Count(got, |got|, ids[i])
      ensures Permutation(Select(full, Reads(columns, fkColumn, ids[i])), NestedLoop(rows, keep, fkColumn, ids[i]))
      ensures |NestedLoop(rows, keep, fkColumn, ids[i])| == Count(all, |all|, ids[i])
    {
      OneOfMany(found, columns, fkColumn, ids, i, lists[i]);
      AnswerFor(full, rows, keep, columns, fkColumn, ids, ids[i]);
      CountIsSelected(full, columns, fkColumn, ids[i]);
      PermutationSize(Select(full, Reads(columns, fkColumn, ids[i])), NestedLoop(rows, keep, fkColumn, ids[i]));
    }
    if forall i :: 0 <= i < |ids| ==> Permutation(RowsOf(lists[i]), NestedLoop(rows, keep, fkColumn, ids[i])) {
      forall i | 0 <= i < |ids| ensures Count(got, |got|, ids[i]) == Count(all, |all|, ids[i]) {
        PermutationSize(RowsOf(lists[i]), NestedLoop(rows, keep, fkColumn, ids[i]));
      }
      SameSizes(found, full, rows, keep, columns, fkColumn, ids);
    }
  }

  /** One list of distinct parents. */
  lemma {:induction false} OneOfMany(found: seq<Row>, columns: seq<Column>, fkColumn: Column, ids: seq<Key>, i: nat,
                                     list: seq<Neighbor>)
    requires i < |ids| && forall a, b :: 0 <= a < b < |ids| ==> ids[a] != ids[b]
    requires var got := Decode(found, columns, fkColumn); Attached(list, ids, i, got, |got|)
    ensures RowsOf(list) == Select(found, Reads(columns, fkColumn, ids[i]))
    ensures var got := Decode(found, columns, fkColumn); |list| == Count(got, |got|, ids[i])
  {
    var got := Decode(found, columns, fkColumn);
    LastPlaceIs(ids, |ids|, ids[i]);
    assert ids[..|ids|] == ids;
    ListIsRefs(list, got, |got|, ids[i]);
    RefsOfDecoded(found, columns, fkColumn, |found|, ids[i]);
    assert found[..|found|] == found;
  }

  // ---------------------------------------------------------------------------------------
  // Instances
  // ---------------------------------------------------------------------------------------

  /** A database that answers in table order. */
  function InTableOrder(rows: seq<Row>, keep: Row -> bool, column: Column): seq<seq<Key>> -> Result<seq<Row>, Error>
  {
    (filters: seq<seq<Key>>) => Ok(Select(rows, Kept(keep, column, filters)))
  }

  function AnyRow(): Row -> bool
  {
    (r: Row) => true
  }

  const CHILD: Row := map[ID := 1, 1 := 7]

  lemma {:induction false} SelectOne(r: Row, p: Row -> bool)
    ensures Select([r], p) == if p(r) then [r] else []
  {
    assert [r][..0] == [];
  }

  /** An instance: parent 7 has a child; a run that returned only parent 3 came before; and then the
      list of parent 7 is empty, where the first run would have filled it. */
  lemma {:induction false} SecondRunLosesAChild(columns: seq<Column>, list: seq<Neighbor>)
    requires var got := Decode(InTableOrder([CHILD], AnyRow(), 1)([[3], [7]]).value, columns, 1);
      Attached(list, [7], 0, got, |got|)
    ensures var fetch := InTableOrder([CHILD], AnyRow(), 1);
      && Honest(fetch, [CHILD], AnyRow(), 1) && NestedLoop([CHILD], AnyRow(), 1, 7) == [CHILD]
      && fetch([[7]]) == Ok([CHILD]) && fetch([[3], [7]]) == Ok([]) && list == []
  {
    var first, second := [[7]], [[3], [7]];
    assert forall f <- first :: 7 in f;
    assert second[0] == [3] && 7 !in [3];
    SelectOne(CHILD, Kept(AnyRow(), 1, first));
    SelectOne(CHILD, Kept(AnyRow(), 1, second));
    SelectOne(CHILD, RefersTo(AnyRow(), 1, 7));
  }

  // ---------------------------------------------------------------------------------------
  // The foreign key, and the owner edge
  // ---------------------------------------------------------------------------------------

  /** The foreign key column is what a projection must not lose: without it no entity that comes
      back belongs to any parent (whose id is not empty), and the load fails on the first one. */
  lemma {:induction false} WithoutForeignKey(rows: seq<Row>, columns: seq<Column>, fkColumn: Column, ids: seq<Key>,
                                             j: nat)
    requires fkColumn !in columns && EMPTY !in ids && j < |rows|
    ensures !Known(ids, Decode(rows, columns, fkColumn)[j])
  {
    LastPlaceIs(ids, |ids|, EMPTY);
    assert ids[..|ids|] == ids;
  }

  lemma {:induction false} LastIsLastSelected(rows: seq<Row>, columns: seq<Column>, fkColumn: Column, k: nat, id: Key)
    requires k <= |rows|
    ensures var p := LastWithId(Decode(rows, columns, fkColumn), k, id);
      var found := Select(rows[..k], Reads(columns, ID, id));
      (p < 0 <==> found == []) && (p >= 0 ==> rows[p] == found[|found| - 1])
  {
    if k > 0 {
      LastIsLastSelected(rows, columns, fkColumn, k - 1, id);
      assert rows[..k][..k - 1] == rows[..k - 1];
    }
  }

  lemma {:induction false} AnswerWasAsked(found: seq<Row>, rows: seq<Row>, keep: Row -> bool, columns: seq<Column>,
                                          fkColumn: Column, earlier: seq<seq<Key>>, ids: seq<Key>, n: Neighbor)
    requires ID in columns && Permutation(found, Select(rows, Kept(keep, ID, earlier + [ids])))
    requires n in Decode(found, columns, fkColumn)
    ensures n.id in ids
  {
    var x :| 0 <= x < |found| && Decode(found, columns, fkColumn)[x] == n;
    AnswerPasses(found, rows, Kept(keep, ID, earlier + [ids]), x);
    assert (earlier + [ids])[|earlier|] == ids;
  }

  /** What the owner edge is in the end, against an honest database: nil exactly if the key is
      nil, or there is no kept row with the key as its id, or the key does not pass the lists
      added to the query before; otherwise the entity of such a row (of the last that came, were
      there several), the same for every parent with the key. */
  lemma {:induction false} OwnerEdgeIsLookup(fetch: seq<seq<Key>> -> Result<seq<Row>, Error>, fkColumn: Column,
                                             rows: seq<Row>, keep: Row -> bool, columns: seq<Column>,
                                             earlier: seq<seq<Key>>, keys: seq<Option<Key>>, ids: seq<Key>, i: nat)
    requires Honest(fetch, rows, keep, ID) && ID in columns && i < |keys| && FirstOccurrences(ids, keys, |keys|)
    ensures fetch(earlier + [ids]).Ok?
    ensures var got := Decode(fetch(earlier + [ids]).value, columns, fkColumn);
      && (forall n <- got :: Held(keys, |keys|, n.id))
      && var owner := OwnerAfter(None, keys[i], got, |got|);
        if keys[i].None? || exists f <- earlier :: keys[i].value !in f then owner == None
        else
          var found := NestedLoop(rows, keep, ID, keys[i].value);
          (owner == None <==> found == []) && (owner.Some? ==> owner.value.row in found)
  {
    var filters := earlier + [ids];
    var found := fetch(filters).value;
    var got := Decode(found, columns, fkColumn);
    FirstOccurrencesOnce(ids, keys, |keys|);
    forall n | n in got ensures Held(keys, |keys|, n.id) {
      AnswerWasAsked(found, rows, keep, columns, fkColumn, earlier, ids, n);
    }
    if keys[i].Some? {
      var id := keys[i].value;
      assert Held(keys, |keys|, id);
      LastIsLastSelected(found, columns, fkColumn, |found|, id);
      assert found[..|found|] == found;
      LookedUp(found, rows, keep, columns, earlier, ids, id);
      var here := Select(found, Reads(columns, ID, id));
      assert here != [] ==> here[|here| - 1] in here;
    }
  }

  /** The rows of an answer with one id are those that the nested loop finds. */
  lemma {:induction false} LookedUp(found: seq<Row>, rows: seq<Row>, keep: Row -> bool, columns: seq<Column>,
                                    earlier: seq<seq<Key>>, ids: seq<Key>, id: Key)
    requires ID in columns && id in ids && Permutation(found, Select(rows, Kept(keep, ID, earlier + [ids])))
    ensures var here, there := Select(found, Reads(columns, ID, id)),
              if forall f <- earlier :: id in f then NestedLoop(rows, keep, ID, id) else [];
      (here == [] <==> there == []) && forall r :: r in here <==> r in there
  {
    var p, q := Kept(keep, ID, earlier + [ids]), Reads(columns, ID, id);
    SelectPermutes(found, Select(rows, p), q);
    SelectTwice(rows, p, q);
    NarrowedToOne(rows, keep, columns, ID, earlier, ids, id);
    EmptyPermutation(Select(found, q), Select(Select(rows, p), q));
  }

  /** Of the rows that pass all lists, those that read as one of the last list's ids. */
  lemma {:induction false} NarrowedToOne(rows: seq<Row>, keep: Row -> bool, columns: seq<Column>, column: Column,
                                         earlier: seq<seq<Key>>, ids: seq<Key>, id: Key)
    requires column in columns && id in ids
    ensures Select(rows, Both(Kept(keep, column, earlier + [ids]), Reads(columns, column, id))) ==
            if forall f <- earlier :: id in f then NestedLoop(rows, keep, column, id) else []
  {
    var both := Both(Kept(keep, column, earlier + [ids]), Reads(columns, column, id));
    forall r: Row
      ensures both(r) <==> (RefersTo(keep, column, id)(r) && forall f <- earlier :: id in f)
    {
      PassesBoth(r, column, earlier, ids, id);
    }
    if forall f <- earlier :: id in f {
      SelectSame(rows, both, RefersTo(keep, column, id));
    } else {
      SelectNone(rows, both);
    }
  }
}
