// Traversals: queries chained along edges through path closures, the selectors that running them
// builds, and the rows that those mean.
module Traversal {
  import opened Wrappers

  // Ids of rows, columns, predicates, order options, tables and edges, by name.
  type Key = nat
  type Name = nat

  // ---------------------------------------------------------------------------------------
  // SELECT statements
  // ---------------------------------------------------------------------------------------

  /** What a statement selects from: a table, or the neighbors along an edge of what an inner
      statement selects. */
  datatype From = Table(table: Name) | Neighbors(inner: Select, edge: Name, table: Name)

  datatype Select = Select(from: From, columns: seq<Name>, distinct: bool, wheres: seq<Name>, orders: seq<Name>,
                           limit: Option<nat>, offset: Option<nat>)

  const MAX_INT32: nat := 0x7fff_ffff

  /** The contract of a database: the rows of its tables, which rows are related along an edge,
      which predicates hold, and how order options sort. */
  datatype Db = Db(rows: Name -> seq<Key>, related: (Name, Key, Key) -> bool, holds: (Name, Key) -> bool,
                   sorted: (seq<Name>, seq<Key>) -> seq<Key>)

  predicate HoldsAll(db: Db, wheres: seq<Name>, x: Key)
  {
    forall p <- wheres :: db.holds(p, x)
  }

  function Filter(rows: seq<Key>, keep: Key -> bool): (r: seq<Key>)
    ensures forall x :: x in r <==> x in rows && keep(x)
  {
    if rows == [] then []
    else if keep(rows[|rows| - 1]) then Filter(rows[..|rows| - 1], keep) + [rows[|rows| - 1]]
    else Filter(rows[..|rows| - 1], keep)
  }

  /** LIMIT and OFFSET */
  function Page(rows: seq<Key>, limit: Option<nat>, offset: Option<nat>): seq<Key>
  {
    var rest := if offset.None? then rows else if offset.value <= |rows| then rows[offset.value..] else [];
    if limit.Some? && limit.value < |rest| then rest[..limit.value] else rest
  }

  /** The rows of a statement. The neighbors of rows are the related rows of the other table. */
  function Rows(db: Db, s: Select): seq<Key>
    decreases s, 1
  {
    Page(db.sorted(s.orders, Filter(Source(db, s.from), Holding(db, s.wheres))), s.limit, s.offset)
  }

  function Source(db: Db, f: From): seq<Key>
    decreases f, 0
  {
    match f
    case Table(t) => db.rows(t)
    case Neighbors(inner, e, t) => var xs := Rows(db, inner); Filter(db.rows(t), Related(db, xs, e))
  }

  // ---------------------------------------------------------------------------------------
  // Builders
  // ---------------------------------------------------------------------------------------

  /** An interceptor: none that was registered without importing its package, one that leaves
      traversals alone, or a traverser, which may add predicates to the query or refuse it. */
  datatype Inter = Uninitialized | Other | Traverser(adds: seq<Name>, refuses: Option<nat>)

  datatype Error = UninitializedInterceptor | Refused(code: nat) | InvalidField(column: Name) | SurplusColumns(n: nat)

  /** A selector, to which a query adds. */
  class Selector {
    const from: From
    var columns: seq<Name>
    var distinct: bool
    var wheres: seq<Name>
    var orders: seq<Name>
    var limit: Option<nat>
    var offset: Option<nat>

    constructor (from: From)
      ensures Value() == Bare(from)
    {
      this.from, columns, distinct, wheres, orders, limit, offset := from, [], false, [], [], None, None;
    }

    function Value(): Select
      reads this
    {
      Select(from, columns, distinct, wheres, orders, limit, offset)
    }
  }

  function Bare(from: From): Select
  {
    Select(from, [], false, [], [], None, None)
  }

  /** What a query puts on top of a statement. */
  datatype Asked = Asked(columns: seq<Name>, unique: Option<bool>, predicates: seq<Name>, order: seq<Name>,
                         limit: Option<nat>, offset: Option<nat>)

  /** The body of sqlQuery. */
  function OnTop(s: Select, a: Asked): Select
  {
    s.(columns := a.columns, distinct := s.distinct || a.unique == Some(true),
       wheres := s.wheres + a.predicates, orders := s.orders + a.order,
       offset := if a.offset.Some? then a.offset else s.offset,
       limit := if a.limit.Some? then a.limit else if a.offset.Some? then Some(MAX_INT32) else s.limit)
  }

  /** The path closure of a query made by QueryMappings and its siblings: the query that it was
      called on, and the edge. */
  datatype Path = Path(prev: Query, edge: Name)

  /** A query as a value, with all it was called on. */
  datatype Plan = Plan(table: Name, allColumns: seq<Name>, inters: seq<Inter>, fields: seq<Name>, asked: Asked,
                       path: Route)
  datatype Route = Start | Along(prev: Plan, edge: Name)

  /** The statement that a query is to run: one level for each query of the path, with what that
      query says, once. */
  function Statement(p: Plan): Select
    decreases p, 1
  {
    OnTop(Beneath(p), p.asked)
  }

  function Beneath(p: Plan): Select
    decreases p, 0
  {
    if p.path.Start? then Bare(Table(p.table)) else Bare(Neighbors(Statement(p.path.prev), p.path.edge, p.table))
  }

  /** The first error on the path, beginning at its end. */
  function Fails(p: Plan): Option<Error>
  {
    if RefusedBy(p.inters).Some? then RefusedBy(p.inters)
    else if FirstInvalid(p.fields, p.allColumns).Some? then
      Some(InvalidField(FirstInvalid(p.fields, p.allColumns).value))
    else if p.path.Along? then Fails(p.path.prev)
    else None
  }

  /** A query that traversers have seen: what they add stays. */
  function Prepared(p: Plan): Plan
  {
    p.(asked := p.asked.(predicates := p.asked.predicates + AddedBy(p.inters)),
       path := if p.path.Start? then Start else Along(Prepared(p.path.prev), p.path.edge))
  }

  class Query {
    const table: Name
    const allColumns: seq<Name>
    const inters: seq<Inter>
    const path: Option<Path>
    ghost const depth: nat
    ghost const before: set<Query>         // the queries along the path
    var fields: seq<Name>
    var unique: Option<bool>
    var predicates: seq<Name>
    var order: seq<Name>
    var limit: Option<nat>
    var offset: Option<nat>
    var sql: Selector?

    constructor (table: Name, allColumns: seq<Name>, inters: seq<Inter>, path: Option<Path>)
      requires path.Some? ==> path.value.prev.Valid()
      ensures this.table == table && this.allColumns == allColumns && this.inters == inters && this.path == path
      ensures Valid() && depth == (if path.Some? then path.value.prev.depth + 1 else 0) && sql == null
      ensures Says() == Asked(allColumns, None, [], [], None, None) && fields == []
    {
      this.table, this.allColumns, this.inters, this.path := table, allColumns, inters, path;
      depth := if path.Some? then path.value.prev.depth + 1 else 0;
      before := if path.Some? then path.value.prev.before + {path.value.prev} else {};
      fields, unique, predicates, order, limit, offset, sql := [], None, [], [], None, None, null;
    }

    /** Paths lead back to queries that were there before. */
    ghost predicate Valid()
      decreases depth
    {
      if path.None? then before == {}
      else
        var prev := path.value.prev;
        prev.depth < depth && prev.Valid() && before == prev.before + {prev} && this !in before
    }

    function Says(): Asked
      reads this
    {
      Asked(if fields == [] then allColumns else fields, unique, predicates, order, limit, offset)
    }
  
    /** The query and those it was called on, as a value. */
    ghost function View(): Plan
      requires Valid()
      reads this, before
      decreases depth
    {
      Plan(table, allColumns, inters, fields, Says(),
           if path.None? then Start else Along(path.value.prev.View(), path.value.edge))
    }

    /** Queries without a path have no intermediate statement. */
    ghost predicate Rooted()
      requires Valid()
      reads this, before
      decreases depth
    {
      if path.None? then sql == null else path.value.prev.Rooted()
    }

    /** The first two loops of prepareQuery. */
    method Check() returns (err: Option<Error>)
      modifies this`predicates
      ensures err == if RefusedBy(inters).Some? then RefusedBy(inters)
                     else if FirstInvalid(fields, allColumns).Some? then
                       Some(InvalidField(FirstInvalid(fields, allColumns).value))
                     else None
      ensures predicates == old(predicates) + AddedBy(inters)
    {
      for i := 0 to |inters|
        invariant RefusedBy(inters) == RefusedBy(inters[i..])
        invariant predicates + AddedBy(inters[i..]) == old(predicates) + AddedBy(inters)
      {
        if inters[i].Uninitialized? {
          return Some(UninitializedInterceptor);
        }
        if inters[i].Traverser? {
          predicates := predicates + inters[i].adds;
          if inters[i].refuses.Some? {
            return Some(Refused(inters[i].refuses.value));
          }
        }
      }
      for i := 0 to |fields|
        invariant FirstInvalid(fields, allColumns) == FirstInvalid(fields[i..], allColumns)
      {
        if fields[i] !in allColumns {
          return Some(InvalidField(fields[i]));
        }
      }
      err := None;
    }

    /** prepareQuery: the statement of the path so far is built anew, whatever was there before. */
    method PrepareQuery() returns (err: Option<Error>)
      requires Valid() && Rooted()
      modifies this`predicates, this`sql, before`predicates, before`sql
      ensures Rooted() && err == Fails(old(View()))
      ensures err.None? ==> View() == Prepared(old(View()))
      ensures if err.None? && path.Some? then sql != null && fresh(sql) else sql == old(sql)
      ensures err.None? ==> (if sql == null then Bare(Table(table)) else sql.Value()) == Beneath(View())
      decreases depth, 0
    {
      err := Check();
      if err.None? && path.Some? {
        var r := path.value.prev.Follow(path.value.edge, table);
        if r.Ok? {
          sql := r.value;
        } else {
          err := Some(r.error);
        }
      }
    }

    /** The path closure that this query gives to one called on it along an edge. */
    method Follow(edge: Name, to: Name) returns (r: Result<Selector, Error>)
      requires Valid() && Rooted()
      modifies this`predicates, this`sql, before`predicates, before`sql
      ensures Rooted() && (if r.Ok? then None else Some(r.error)) == Fails(old(View()))
      ensures r.Ok? ==>
        && View() == Prepared(old(View()))
        && fresh(r.value) && r.value.Value() == Bare(Neighbors(Statement(View()), edge, to))
      decreases depth, 1
    {
      var err := PrepareQuery();
      if err.Some? {
        return Err(err.value);
      }
      var selector := SqlQuery();
      var neighbors := new Selector(Neighbors(selector.Value(), edge, to));
      r := Ok(neighbors);
    }

    /** sqlQuery adds to the intermediate statement in place, if there is one. */
    method SqlQuery() returns (s: Selector)
      modifies sql
      ensures s.Value() == OnTop(if old(sql) == null then Bare(Table(table)) else old(sql.Value()), Says())
      ensures if sql == null then fresh(s) else s == sql
    {
      if sql != null {
        s := sql;
      } else {
        s := new Selector(Table(table));
      }
      s.columns := if fields == [] then allColumns else fields;
      if unique == Some(true) {
        s.distinct := true;
      }
      s.wheres := s.wheres + predicates;
      s.orders := s.orders + order;
      if offset.Some? {
        s.offset := offset;
        s.limit := Some(MAX_INT32);
      }
      if limit.Some? {
        s.limit := limit;
      }
    }
  }

  // ---------------------------------------------------------------------------------------
  // Running a query
  // ---------------------------------------------------------------------------------------

  /** Running a query through sqlScan: whatever intermediate statements earlier runs left, the
      statement holds each query of the path once. */
  method Run(q: Query) returns (r: Result<Select, Error>)
    requires q.Valid() && q.Rooted()
    modifies q`predicates, q`sql, q.before`predicates, q.before`sql, q.sql
    ensures q.Rooted() && (if r.Ok? then None else Some(r.error)) == Fails(old(q.View()))
    ensures r.Ok? ==> q.View() == Prepared(old(q.View())) && r.value == Statement(q.View())
    ensures r.Ok? ==>
      && q.predicates == old(q.predicates) + AddedBy(q.inters)
      && r.value.wheres == q.predicates && r.value.orders == q.order && r.value.offset == q.offset
      && r.value.limit == (if q.limit.Some? then q.limit else if q.offset.Some? then Some(MAX_INT32) else None)
      && r.value.columns == (if q.fields == [] then q.allColumns else q.fields)
      && (r.value.distinct <==> q.unique == Some(true))
      && r.value.from == if q.path.None? then Table(q.table)
                         else Neighbors(Statement(q.path.value.prev.View()), q.path.value.edge, q.table)
    ensures q.sql == old(q.sql) || (q.sql != null && fresh(q.sql))
  {
    var err := q.PrepareQuery();
    if err.Some? {
      return Err(err.value);
    }
    var selector := q.SqlQuery();
    r := Ok(selector.Value());
  }

  /** A second run does not fail where the first succeeded, and its statement is the first one's
      but for what traversers have added once more. */
  method RunTwice(q: Query) returns (first: Result<Select, Error>, second: Result<Select, Error>)
    requires q.Valid() && q.Rooted()
    modifies q, q.before, q.sql
    ensures first.Ok? ==> second.Ok? && SameButRepeats(first.value, second.value)
    ensures first.Ok? && NoTraversers(old(q.View())) ==> second == first
  {
    ghost var p := q.View();
    first := Run(q);
    second := Run(q);
    if first.Ok? {
      PreparedRuns(p);
      PreparedRuns(Prepared(p));
      PreparedHasAdded(p);
      AddsRepeats(Prepared(p));
      if NoTraversers(p) {
        NothingAdded(p);
        NothingAdded(Prepared(p));
      }
    }
  }

  predicate NoTraversers(p: Plan)
  {
    AddedBy(p.inters) == [] && (p.path.Along? ==> NoTraversers(p.path.prev))
  }

  /** The same statement, but for predicates that are repeated. */
  predicate SameButRepeats(s: Select, s': Select)
    decreases s
  {
    && s' == s.(wheres := s'.wheres, from := s'.from)
    && (forall p <- s.wheres :: p in s'.wheres) && (forall p <- s'.wheres :: p in s.wheres)
    && (if s.from.Table? then s'.from == s.from
        else
          && s'.from.Neighbors? && s'.from == s.from.(inner := s'.from.inner)
          && SameButRepeats(s.from.inner, s'.from.inner))
  }

  lemma {:induction false} PreparedRuns(p: Plan)
    ensures Fails(Prepared(p)) == Fails(p)
  {
    if p.path.Along? {
      PreparedRuns(p.path.prev);
    }
  }

  lemma {:induction false} NothingAdded(p: Plan)
    requires NoTraversers(p)
    ensures Prepared(p) == p
  {
    if p.path.Along? {
      NothingAdded(p.path.prev);
    }
  }

  predicate HasAdded(p: Plan)
  {
    && (forall x <- AddedBy(p.inters) :: x in p.asked.predicates)
    && (p.path.Along? ==> HasAdded(p.path.prev))
  }

  lemma {:induction false} PreparedHasAdded(p: Plan)
    ensures HasAdded(Prepared(p))
  {
    if p.path.Along? {
      PreparedHasAdded(p.path.prev);
    }
  }

  lemma {:induction false} AddsRepeats(p: Plan)
    requires HasAdded(p)
    ensures SameButRepeats(Statement(p), Statement(Prepared(p)))
  {
    if p.path.Along? {
      AddsRepeats(p.path.prev);
    }
  }

  /** The predicates that traversers add, up to the first interceptor that stops the query. */
  function AddedBy(inters: seq<Inter>): seq<Name>
  {
    if inters == [] || inters[0].Uninitialized? then []
    else if inters[0].Other? then AddedBy(inters[1..])
    else if inters[0].refuses.Some? then inters[0].adds
    else inters[0].adds + AddedBy(inters[1..])
  }

  function RefusedBy(inters: seq<Inter>): Option<Error>
  {
    if inters == [] then None
    else if inters[0].Uninitialized? then Some(UninitializedInterceptor)
    else if inters[0].Traverser? && inters[0].refuses.Some? then Some(Refused(inters[0].refuses.value))
    else RefusedBy(inters[1..])
  }

  function FirstInvalid(fields: seq<Name>, columns: seq<Name>): Option<Name>
  {
    if fields == [] then None else if fields[0] !in columns then Some(fields[0]) else FirstInvalid(fields[1..], columns)
  }

  // The laws of these three.

  /** What is added by interceptors is what each of them adds, in order, as long as none stops the
      query; what stops it is the first that does. */
  lemma {:induction false} IntersAppend(a: seq<Inter>, b: seq<Inter>)
    ensures RefusedBy(a + b) == if RefusedBy(a).Some? then RefusedBy(a) else RefusedBy(b)
    ensures AddedBy(a + b) == if RefusedBy(a).Some? then AddedBy(a) else AddedBy(a) + AddedBy(b)
  {
    if a == [] {
      assert a + b == b;
    } else {
      assert (a + b)[1..] == a[1..] + b;
      IntersAppend(a[1..], b);
    }
  }

  lemma {:induction false} OneInter(inter: Inter)
    ensures RefusedBy([inter]) ==
            (match inter
             case Uninitialized => Some(UninitializedInterceptor)
             case Other => None
             case Traverser(_, refuses) => if refuses.Some? then Some(Refused(refuses.value)) else None)
    ensures AddedBy([inter]) == if inter.Traverser? then inter.adds else []
  {
    assert [inter][1..] == [];
  }

  /** The first field that is no column. */
  lemma {:induction false} FirstInvalidIs(fields: seq<Name>, columns: seq<Name>)
    ensures FirstInvalid(fields, columns).None? <==> forall f <- fields :: f in columns
    ensures FirstInvalid(fields, columns).Some? ==>
      exists p :: 0 <= p < |fields| && FirstInvalid(fields, columns) == Some(fields[p]) && fields[p] !in columns &&
        forall q :: 0 <= q < p ==> fields[q] in columns
  {
    if fields != [] && fields[0] in columns {
      FirstInvalidIs(fields[1..], columns);
      if FirstInvalid(fields, columns).Some? {
        var p :| 0 <= p < |fields[1..]| && FirstInvalid(fields[1..], columns) == Some(fields[1..][p]) &&
          fields[1..][p] !in columns && forall q :: 0 <= q < p ==> fields[1..][q] in columns;
        assert fields[p + 1] == fields[1..][p];
        assert forall q :: 1 <= q < p + 1 ==> fields[q] == fields[1..][q - 1];
      } else {
        assert forall f <- fields :: f == fields[0] || f in fields[1..];
      }
    }
  }

  // ---------------------------------------------------------------------------------------
  // The rows
  // ---------------------------------------------------------------------------------------

  lemma {:induction false} FilterSame(rows: seq<Key>, p: Key -> bool, q: Key -> bool)
    requires forall x :: p(x) <==> q(x)
    ensures Filter(rows, p) == Filter(rows, q)
  {
    if rows != [] {
      FilterSame(rows[..|rows| - 1], p, q);
    }
  }

  function Related(db: Db, xs: seq<Key>, edge: Name): Key -> bool
  {
    (y: Key) => exists x <- xs :: db.related(edge, x, y)
  }

  function Holding(db: Db, wheres: seq<Name>): Key -> bool
  {
    (x: Key) => HoldsAll(db, wheres, x)
  }

  /** Repeated predicates change no row, so that a query may be run again and again. */
  lemma {:induction false} SameRows(db: Db, s: Select, s': Select)
    requires SameButRepeats(s, s')
    ensures Rows(db, s) == Rows(db, s')
    decreases s
  {
    if s.from.Neighbors? {
      SameRows(db, s.from.inner, s'.from.inner);
    }
    assert Source(db, s.from) == Source(db, s'.from);
    FilterSame(Source(db, s.from), Holding(db, s.wheres), Holding(db, s'.wheres));
  }

  /** What is asked of a database's sorting here: the same rows as often, in another order. */
  ghost predicate SortsOnly(db: Db)
  {
    forall orders: seq<Name>, rows: seq<Key> :: multiset(db.sorted(orders, rows)) == multiset(rows)
  }

  lemma {:induction false} FilterCounts(rows: seq<Key>, keep: Key -> bool, x: Key)
    ensures multiset(Filter(rows, keep))[x] == if keep(x) then multiset(rows)[x] else 0
  {
    if rows != [] {
      FilterCounts(rows[..|rows| - 1], keep, x);
      assert rows == rows[..|rows| - 1] + [rows[|rows| - 1]];
    }
  }

  predicate Unpaged(p: Plan)
  {
    p.asked.limit.None? && p.asked.offset.None? && (p.path.Along? ==> Unpaged(p.path.prev))
  }

  /** The composed relation: a row of the query's table that its predicates hold of and that, if
      the query was called on another, is related along the edge to a row which that one
      reaches. */
  ghost predicate Reaches(db: Db, p: Plan, y: Key)
    decreases p
  {
    && y in db.rows(p.table) && HoldsAll(db, p.asked.predicates, y)
    && (p.path.Along? ==> exists x :: Reaches(db, p.path.prev, x) && db.related(p.path.edge, x, y))
  }

  /** How often a row is among the sources of a statement of a query. */
  lemma {:induction false} UnpagedCounts(db: Db, p: Plan, y: Key)
    requires SortsOnly(db) && Unpaged(p)
    ensures multiset(Rows(db, Statement(p)))[y] ==
            if HoldsAll(db, p.asked.predicates, y) then multiset(Source(db, Beneath(p).from))[y] else 0
  {
    var s := Statement(p);
    StatementSays(p);
    assert s.limit.None? && s.offset.None? && s.from == Beneath(p).from;
    var found := Filter(Source(db, s.from), Holding(db, s.wheres));
    assert Rows(db, s) == db.sorted(s.orders, found);
    FilterCounts(Source(db, s.from), Holding(db, s.wheres), y);
  }

  /** A chain of queries means the composed relation: every row that it reaches stands in the result
      exactly as often as in its table, through however many rows it is reached, and no other row
      does. */
  lemma {:induction false} TraversalComposes(db: Db, p: Plan, y: Key)
    requires SortsOnly(db) && Unpaged(p)
    ensures multiset(Rows(db, Statement(p)))[y] == if Reaches(db, p, y) then multiset(db.rows(p.table))[y] else 0
    ensures y in Rows(db, Statement(p)) <==> Reaches(db, p, y)
    decreases p
  {
    UnpagedCounts(db, p, y);
    if p.path.Along? {
      var inner := Statement(p.path.prev);
      forall x: Key ensures x in Rows(db, inner) <==> Reaches(db, p.path.prev, x) {
        TraversalComposes(db, p.path.prev, x);
      }
      FilterCounts(db.rows(p.table), Related(db, Rows(db, inner), p.path.edge), y);
      assert Source(db, Beneath(p).from) == Filter(db.rows(p.table), Related(db, Rows(db, inner), p.path.edge));
    }
    assert y in db.rows(p.table) <==> multiset(db.rows(p.table))[y] > 0;
    assert y in Rows(db, Statement(p)) <==> multiset(Rows(db, Statement(p)))[y] > 0;
  }

  // What a query shows, told from the query and not from the statements that it builds.

  /** The rows that its predicates hold of, sorted: of its table, or of those related to what the
      query that it was called on shows. */
  function Found(db: Db, p: Plan): seq<Key>
    decreases p, 0
  {
    var rows := if p.path.Start? then db.rows(p.table)
                else Filter(db.rows(p.table), Related(db, Shown(db, p.path.prev), p.path.edge));
    db.sorted(p.asked.order, Filter(rows, Holding(db, p.asked.predicates)))
  }

  /** Those from the offset on. */
  function Onward(db: Db, p: Plan): seq<Key>
    decreases p, 1
  {
    var all, skipped := Found(db, p), p.asked.offset.GetOr(0);
    if skipped <= |all| then all[skipped..] else []
  }

  /** As many of them as asked for; an offset without a limit brings a limit of its own. */
  function Shown(db: Db, p: Plan): seq<Key>
    decreases p, 2
  {
    var rest := Onward(db, p);
    var most := if p.asked.limit.Some? then p.asked.limit.value
                else if p.asked.offset.Some? then MAX_INT32
                else |rest|;
    if most < |rest| then rest[..most] else rest
  }

  /** What is put on top of a statement comes after what is there already, and replaces the limit
      and the offset only where it has its own. */
  lemma {:induction false} OnTopExtends(s: Select, a: Asked)
    ensures var r := OnTop(s, a);
      && r.from == s.from && r.columns == a.columns && (r.distinct <==> s.distinct || a.unique == Some(true))
      && s.wheres <= r.wheres && r.wheres[|s.wheres|..] == a.predicates
      && s.orders <= r.orders && r.orders[|s.orders|..] == a.order
      && (a.limit.None? && a.offset.None? ==> r.limit == s.limit && r.offset == s.offset)
      && (a.limit.Some? ==> r.limit == a.limit && r.offset == if a.offset.Some? then a.offset else s.offset)
      && (a.limit.None? && a.offset.Some? ==> r.limit == Some(MAX_INT32) && r.offset == a.offset)
  {
  }

  lemma {:induction false} StatementSays(p: Plan)
    ensures var s, a := Statement(p), p.asked;
      && s.wheres == a.predicates && s.orders == a.order && s.columns == a.columns
      && (s.distinct <==> a.unique == Some(true)) && s.offset == a.offset
      && s.limit == (if a.limit.Some? then a.limit else if a.offset.Some? then Some(MAX_INT32) else None)
      && s.from == (if p.path.Start? then Table(p.table) else Neighbors(Statement(p.path.prev), p.path.edge, p.table))
  {
    assert Beneath(p) == Bare(Beneath(p).from);
  }

  /** Running the statement of a query gives that, limits and offsets on the way included. */
  lemma {:induction false} RowsAreShown(db: Db, p: Plan)
    ensures Rows(db, Statement(p)) == Shown(db, p)
    decreases p
  {
    var s := Statement(p);
    StatementSays(p);
    if p.path.Along? {
      RowsAreShown(db, p.path.prev);
    }
    assert db.sorted(s.orders, Filter(Source(db, s.from), Holding(db, s.wheres))) == Found(db, p);
    var all := Found(db, p);
    assert all[0..] == all;
  }

  lemma {:induction false} LimitedRows(db: Db, p: Plan, n: nat)
    requires p.asked.limit == Some(n)
    ensures Rows(db, Statement(p)) == if n < |Onward(db, p)| then Onward(db, p)[..n] else Onward(db, p)
  {
    RowsAreShown(db, p);
  }

  /** An offset without a limit: every row from the offset on is there if and only if these are no
      more than 2147483647. */
  lemma {:induction false} OffsetAlone(db: Db, p: Plan)
    requires p.asked.limit == None && p.asked.offset.Some?
    ensures Rows(db, Statement(p)) == Onward(db, p) <==> |Onward(db, p)| <= MAX_INT32
  {
    RowsAreShown(db, p);
  }

  /** Filtering goes row by row and keeps the order. */
  lemma {:induction false} FilterAppend(a: seq<Key>, b: seq<Key>, keep: Key -> bool)
    ensures Filter(a + b, keep) == Filter(a, keep) + Filter(b, keep)
    ensures |b| == 1 ==> Filter(b, keep) == if keep(b[0]) then b else []
  {
    if b == [] {
      assert a + b == a;
    } else {
      var init, last := b[..|b| - 1], b[|b| - 1];
      assert (a + b)[..|a + b| - 1] == a + init;
      FilterAppend(a, init, keep);
    }
  }

  lemma {:induction false} FilterAll(rows: seq<Key>, keep: Key -> bool)
    requires forall x :: keep(x)
    ensures Filter(rows, keep) == rows
  {
    if rows != [] {
      FilterAll(rows[..|rows| - 1], keep);
    }
  }

  /** A table with one row more than the limit, and a query for all of it with OFFSET 0. */
  const LARGE := Db((t: Name) => seq(MAX_INT32 + 1, i => i), (e, x, y) => false, (p, x) => true, (orders, rows) => rows)

  const FROM_THE_START := Plan(0, [0], [], [], Asked([0], None, [], [], None, Some(0)), Start)

  /** An instance: the last row is missing. */
  lemma {:induction false} LastRowIsMissing()
    ensures |Onward(LARGE, FROM_THE_START)| == MAX_INT32 + 1
    ensures |Rows(LARGE, Statement(FROM_THE_START))| == MAX_INT32
  {
    FilterAll(LARGE.rows(0), Holding(LARGE, FROM_THE_START.asked.predicates));
    assert Found(LARGE, FROM_THE_START) == LARGE.rows(0);
    RowsAreShown(LARGE, FROM_THE_START);
  }

  /** Running a query and fetching its rows. */
  method Show(q: Query, db: Db) returns (r: Result<seq<Key>, Error>, s: Select)
    requires q.Valid() && q.Rooted()
    modifies q`predicates, q`sql, q.before`predicates, q.before`sql, q.sql
    ensures q.Rooted() && (if r.Ok? then None else Some(r.error)) == Fails(old(q.View()))
    ensures r.Ok? ==> r.value == Shown(db, Prepared(old(q.View()))) && s == Statement(q.View())
    ensures q.sql == old(q.sql) || (q.sql != null && fresh(q.sql))
  {
    var statement := Run(q);
    if statement.Err? {
      return Err(statement.error), Bare(Table(0));
    }
    s := statement.value;
    RowsAreShown(db, q.View());
    r := Ok(Rows(db, statement.value));
  }

  /** The same query with a limit of its own. */
  function Limited(p: Plan, n: nat): Plan
  {
    p.(asked := p.asked.(limit := Some(n)))
  }

  lemma {:induction false} LimitedShows(db: Db, p: Plan, n: nat)
    ensures Fails(Limited(p, n)) == Fails(p)
    ensures var rest := Onward(db, Prepared(p));
      Shown(db, Prepared(Limited(p, n))) == if n < |rest| then rest[..n] else rest
  {
    SameFound(db, Prepared(Limited(p, n)), Prepared(p));
  }

  lemma {:induction false} SameFound(db: Db, p: Plan, p': Plan)
    requires p.table == p'.table && p.path == p'.path
    requires p.asked.predicates == p'.asked.predicates && p.asked.order == p'.asked.order
    ensures Found(db, p) == Found(db, p')
  {
  }

  datatype OneError = NotFound | NotSingular | Failed(error: Error)

  /** Only: the row from the offset on, exactly if there is just one, whatever limit was set before;
      the limit that it needs for this stays on the query. */
  method Only(q: Query, db: Db) returns (r: Result<Key, OneError>)
    requires q.Valid() && q.Rooted()
    modifies q, q.before, q.sql
    ensures q.Rooted() && q.limit == Some(2)
    ensures r.Err? && r.error.Failed? <==> Fails(old(q.View())).Some?
    ensures Fails(old(q.View())).None? ==>
      var rows := Onward(db, Prepared(old(q.View())));
      r == if |rows| == 0 then Err(NotFound) else if |rows| == 1 then Ok(rows[0]) else Err(NotSingular)
  {
    ghost var p := q.View();
    q.limit := Some(2);
    assert q.View() == Limited(p, 2);
    LimitedShows(db, p, 2);
    var rows, _ := Show(q, db);
    if rows.Err? {
      return Err(Failed(rows.error));
    }
    var found := rows.value;
    r := if |found| == 1 then Ok(found[0]) else if |found| == 0 then Err(NotFound) else Err(NotSingular);
  }

  /** First: the first row from the offset on, if there is one; a limit of 1 stays on the query. */
  method First(q: Query, db: Db) returns (r: Result<Key, OneError>)
    requires q.Valid() && q.Rooted()
    modifies q, q.before, q.sql
    ensures q.Rooted() && q.limit == Some(1)
    ensures r.Err? && r.error.Failed? <==> Fails(old(q.View())).Some?
    ensures Fails(old(q.View())).None? ==>
      var rows := Onward(db, Prepared(old(q.View())));
      r == if |rows| == 0 then Err(NotFound) else Ok(rows[0])
  {
    ghost var p := q.View();
    q.limit := Some(1);
    assert q.View() == Limited(p, 1);
    LimitedShows(db, p, 1);
    var rows, _ := Show(q, db);
    if rows.Err? {
      return Err(Failed(rows.error));
    }
    r := if |rows.value| == 0 then Err(NotFound) else Ok(rows.value[0]);
  }

  /** The contract of scanning rows into a list of strings: one column, and no more. */
  function ScanIDs(columns: nat, rows: seq<Key>): Result<seq<Key>, Error>
  {
    if columns > 1 then Err(SurplusColumns(columns)) else Ok(rows)
  }

  /** The same query with one more column selected, and UNIQUE set or not. */
  function Selecting(p: Plan, id: Name, unique: Option<bool>): Plan
  {
    p.(fields := p.fields + [id], asked := p.asked.(columns := p.fields + [id], unique := unique))
  }

  lemma {:induction false} SelectingShows(db: Db, p: Plan, id: Name, unique: Option<bool>)
    requires id in p.allColumns
    ensures Fails(Selecting(p, id, unique)) == Fails(p)
    ensures Shown(db, Prepared(Selecting(p, id, unique))) == Shown(db, Prepared(p))
  {
    FirstInvalidAppend(p.fields, p.allColumns, id);
    SameFound(db, Prepared(Selecting(p, id, unique)), Prepared(p));
  }

  /** IDs: the ids of the rows, if and only if nothing on the path fails and no column was selected
      before. The id column stays selected on the query, and UNIQUE stays set if it came from a
      traversal. */
  method IDs(q: Query, id: Name, db: Db) returns (r: Result<seq<Key>, Error>)
    requires q.Valid() && q.Rooted() && id in q.allColumns
    modifies q, q.before, q.sql
    ensures q.Rooted() && q.fields == old(q.fields) + [id]
    ensures q.unique == if old(q.unique) == None && q.path.Some? then Some(true) else old(q.unique)
    ensures r.Ok? <==> Fails(old(q.View())).None? && old(q.fields) == []
    ensures Fails(old(q.View())).Some? ==> r == Err(Fails(old(q.View())).value)
    ensures r.Ok? ==> r.value == Shown(db, Prepared(old(q.View())))
    ensures q.sql == old(q.sql) || (q.sql != null && fresh(q.sql))
  {
    ghost var p := q.View();
    if q.unique == None && q.path.Some? {
      q.unique := Some(true);
    }
    q.fields := q.fields + [id];
    assert q.View() == Selecting(p, id, q.unique);
    SelectingShows(db, p, id, q.unique);
    var rows, s := Show(q, db);
    if rows.Err? {
      return rows;
    }
    StatementSays(q.View());
    r := ScanIDs(|s.columns|, rows.value);
  }

  /** So a query gives its ids once. */
  method IDsAgain(q: Query, id: Name, db: Db) returns (first: Result<seq<Key>, Error>, second: Result<seq<Key>, Error>)
    requires q.Valid() && q.Rooted() && id in q.allColumns
    modifies q, q.before, q.sql
    ensures second.Err?
  {
    first := IDs(q, id, db);
    second := IDs(q, id, db);
  }

  lemma {:induction false} FirstInvalidAppend(fields: seq<Name>, columns: seq<Name>, c: Name)
    requires c in columns
    ensures FirstInvalid(fields + [c], columns) == FirstInvalid(fields, columns)
  {
    if fields != [] {
      assert (fields + [c])[1..] == fields[1..] + [c];
      FirstInvalidAppend(fields[1..], columns, c);
    }
  }
}
