// One builder saved in the two ways: by its own Save and as a bulk of one. Where the two agree,
// and every way in which they part.
module FormTheorems {
  import opened Wrappers
  import opened ShareFiles
  import opened MutatorChain
  import opened ChainTheorems
  import opened SaveTheorems

  // ---------------------------------------------------------------------------------------
  // Hooks that pass on the mutation they were given
  // ---------------------------------------------------------------------------------------

  /** The same builder saved in the two ways. */
  function AsSingle(c: Chain): Chain
  {
    c.(mode := Single)
  }

  lemma {:induction false} CoresAgree(c: Chain, w: World)
    requires Fits(c, w) && c.mode.Bulk? && |c.builders| == 1
    ensures BulkCore(c, 0, w, w.current[c.builders[0]]) == SingleCore(AsSingle(c), w, w.current[c.builders[0]])
    ensures BulkCore(c, 0, w, w.current[c.builders[0]]).0.current == w.current
  {
    var m := w.current[c.builders[0]];
    assert w.(current := w.current[c.builders[0] := m]) == w;
    assert w.(mutations := w.mutations[m := w.mutations[m]]) == w;
    var draft := w.mutations[m].draft;
    if !w.mutations[m].foreign && c.entity.check(draft).None? {
      var w1 := Build(c, w, 0, draft, m);
      assert Descend(c, 0, w1) == StoreAll(c, w1) == StoreAll(AsSingle(c), w1);
    }
  }

  lemma {:induction false} RunAgrees(c: Chain, j: nat, w: World)
    requires Fits(c, w) && c.mode.Bulk? && |c.builders| == 1 && j <= |c.Hooks(0)| && AllPassOwn(c)
    ensures Run(c, 0, j, w, w.current[c.builders[0]]) == Run(AsSingle(c), 0, j, w, w.current[c.builders[0]])
    ensures Run(c, 0, j, w, w.current[c.builders[0]]).0.current == w.current
    decreases |c.Hooks(0)| - j, 1, 0
  {
    var m := w.current[c.builders[0]];
    if j == |c.Hooks(0)| {
      CoresAgree(c, w);
    } else {
      ConsultAgrees(c, j, Log(w, Enter(0, j)), None, c.Hooks(0)[j].tries);
    }
  }

  lemma {:induction false} ConsultAgrees(c: Chain, j: nat, w: World, last: Option<Reply>, left: nat)
    requires Fits(c, w) && c.mode.Bulk? && |c.builders| == 1 && j < |c.Hooks(0)| && AllPassOwn(c)
    ensures Consult(c, 0, j, w, w.current[c.builders[0]], last, left) ==
            Consult(AsSingle(c), 0, j, w, w.current[c.builders[0]], last, left)
    ensures Consult(c, 0, j, w, w.current[c.builders[0]], last, left).0.current == w.current
    decreases |c.Hooks(0)| - j, 0, left
  {
    var m := w.current[c.builders[0]];
    assert PassesOwn(c.Hooks(0)[j]);
    var step := c.Hooks(0)[j].step(w.trace, w.mutations[m].draft, last);
    if step.Forward? && left > 0 {
      var w1 := Edit(w, m, step.edit);
      RunAgrees(c, j + 1, w1);
      var (w2, reply) := Run(c, 0, j + 1, w1, m);
      ConsultAgrees(c, j, w2, Some(reply), left - 1);
    }
  }

  /** Hooks that pass on the mutation they were given cannot tell a bulk of one builder from
      the single Save, once the defaults are set: the same hooks are entered and left, the same
      check, build, store and mark happen, mutations end up the same, and both fail with the
      same error or neither fails. Only the value returned may differ: the bulk returns the
      entity it built, the single form whatever value came back through the hooks. */
  lemma {:induction false} BulkOfOneIsSingle(c: Chain, stamp: Stamp, w: World)
    requires IsStart(c, w) && c.mode.Bulk? && |c.builders| == 1 && AllPassOwn(c)
    requires SetDefaults(c, [stamp], w, 0).1.None?
    ensures var (wb, bulk) := BulkSave(c, [stamp], w);
      var (ws, single) := SingleSave(AsSingle(c), stamp, w);
      && wb == ws
      && (bulk.Err? ==> single == Err(bulk.error))
      && (single.Err? && single.error != UnexpectedNode ==> bulk == Err(single.error))
      && (bulk.Ok? ==> bulk.value == wb.nodes && |bulk.value| == 1)
  {
    var w1 := SetDefaults(c, [stamp], w, 0).0;
    assert AllDefaults(c, [stamp], w, 0) == w;
    assert AllDefaults(c, [stamp], w, 1) == w1;
    RunAgrees(c, 0, w1);
  }

  // ---------------------------------------------------------------------------------------
  // Hooks that forward what they like
  // ---------------------------------------------------------------------------------------

  /** Where relaying hooks lead a single builder: the world and the mutation that reach the core
      from link (0, j), or the error of the hook that refuses on the way. */
  function Arrive(c: Chain, j: nat, w: World, m: nat): Result<(World, nat), Error>
    requires Ready(c, 0, j, w, m)
    decreases |c.Hooks(0)| - j
  {
    if j == |c.Hooks(0)| then Ok((w, m))
    else
      var step := c.Hooks(0)[j].step(w.trace + [Enter(0, j)], w.mutations[m].draft, None);
      if step.Answer? then Err(if step.reply.Err? then step.reply.error else HookError(0))
      else
        var (w1, m1) := Pass(Edit(Log(w, Enter(0, j)), m, step.edit), m, step.arg);
        Arrive(c, j + 1, w1, m1)
  }

  /** The hooks do not ask which form they run in. */
  lemma {:induction false} ArrivalIsTheSame(c: Chain, j: nat, w: World, m: nat)
    requires Ready(c, 0, j, w, m) && |c.builders| == 1
    ensures Arrive(AsSingle(c), j, w, m) == Arrive(c, j, w, m)
    decreases |c.Hooks(0)| - j
  {
    if j < |c.Hooks(0)| {
      var step := c.Hooks(0)[j].step(w.trace + [Enter(0, j)], w.mutations[m].draft, None);
      if step.Forward? {
        var (w1, m1) := Pass(Edit(Log(w, Enter(0, j)), m, step.edit), m, step.arg);
        ArrivalIsTheSame(c, j + 1, w1, m1);
      }
    }
  }

  function Core(c: Chain, w: World, m: nat): (World, Reply)
    requires Ready(c, 0, 0, w, m)
  {
    Run(c, 0, |c.Hooks(0)|, w, m)
  }

  /** What the whole run leaves of what its core did. */
  ghost predicate Outer(a: (World, Reply), core: (World, Reply))
  {
    && Stores(a.0.trace) == Stores(core.0.trace) && a.0.specs == core.0.specs && a.0.nodes == core.0.nodes
    && (core.1.Err? ==> a.1 == core.1)
  }

  lemma {:induction false} RefusalIsError(c: Chain, j: nat, w: World, m: nat)
    requires Ready(c, 0, j, w, m) && j < |c.Hooks(0)| && Relays(c.Hooks(0)[j])
    requires c.Hooks(0)[j].step(w.trace + [Enter(0, j)], w.mutations[m].draft, None).Answer?
    ensures var step := c.Hooks(0)[j].step(w.trace + [Enter(0, j)], w.mutations[m].draft, None);
      var r := Run(c, 0, j, w, m);
      Stores(r.0.trace) == Stores(w.trace) && r.0.specs == w.specs && r.1 == step.reply && r.1.Err?
  {
    var w1 := Log(w, Enter(0, j));
    ConsultOnce(c, 0, j, w1, m);
    LogStores(w.trace, Enter(0, j));
    LogStores(w1.trace, Refused(0, j));
    LogStores(Consult(c, 0, j, w1, m, None, c.Hooks(0)[j].tries).0.trace, Leave(0, j));
  }

  lemma {:induction false} LinkIsOuter(c: Chain, j: nat, w: World, m: nat)
    requires Ready(c, 0, j, w, m) && j < |c.Hooks(0)| && Relays(c.Hooks(0)[j])
    requires c.Hooks(0)[j].step(w.trace + [Enter(0, j)], w.mutations[m].draft, None).Forward?
    ensures var step := c.Hooks(0)[j].step(w.trace + [Enter(0, j)], w.mutations[m].draft, None);
      var (w1, m1) := Pass(Edit(Log(w, Enter(0, j)), m, step.edit), m, step.arg);
      && Stores(w1.trace) == Stores(w.trace) && w1.specs == w.specs && w1.current == w.current
      && Outer(Run(c, 0, j, w, m), Run(c, 0, j + 1, w1, m1))
  {
    var w1 := Log(w, Enter(0, j));
    ConsultOnce(c, 0, j, w1, m);
    LogStores(w.trace, Enter(0, j));
    LogStores(Consult(c, 0, j, w1, m, None, c.Hooks(0)[j].tries).0.trace, Leave(0, j));
  }

  /** A run stores what its core stores and fails as its core fails; or a hook has refused, and the
      run stores nothing and fails as that hook did. */
  lemma {:induction false} RunIsOuter(c: Chain, j: nat, w: World, m: nat)
    requires Ready(c, 0, j, w, m) && AllRelay(c)
    ensures var r, a := Run(c, 0, j, w, m), Arrive(c, j, w, m);
      if a.Err? then Stores(r.0.trace) == Stores(w.trace) && r.0.specs == w.specs && r.1 == Err(a.error)
      else
        var (wa, ma) := a.value;
        && Ready(c, 0, 0, wa, ma) && Stores(wa.trace) == Stores(w.trace) && wa.specs == w.specs
        && wa.current == w.current && Outer(r, Core(c, wa, ma))
    decreases |c.Hooks(0)| - j
  {
    if j < |c.Hooks(0)| {
      var step := c.Hooks(0)[j].step(w.trace + [Enter(0, j)], w.mutations[m].draft, None);
      if step.Answer? {
        RefusalIsError(c, j, w, m);
      } else {
        LinkIsOuter(c, j, w, m);
        var (w1, m1) := Pass(Edit(Log(w, Enter(0, j)), m, step.edit), m, step.arg);
        RunIsOuter(c, j + 1, w1, m1);
      }
    }
  }

  /** Build, store, and mark if stored: the tail that both cores share. */
  lemma {:induction false} TailStores(c: Chain, w: World, checked: Draft, m: nat)
    requires Fits(c, w) && |c.builders| == 1 && m < |w.mutations| && Stores(w.trace) == []
    ensures var d := w.mutations[m].draft;
      var spec := [Some(c.entity.createSpec(d).1)];
      var failure := c.store(w.trace + [Built(0, checked, d)], spec);
      var (w', reply) := StoreAll(c, Build(c, w, 0, checked, m));
      && Stores(w'.trace) == [failure.None?] && w'.specs == spec && w'.nodes == [Some(c.entity.createSpec(d).0)]
      && (if failure.Some? then reply == Err(failure.value) else reply.Ok?)
      && |w'.mutations| == |w.mutations| && Stores(MarkDone(w', 0, m).0.trace) == [failure.None?]
      && MarkDone(w', 0, m).1 == Ok(Node(c.entity.createSpec(d).0))
  {
    var d := w.mutations[m].draft;
    var w1 := Build(c, w, 0, checked, m);
    LogStores(w.trace, Built(0, checked, d));
    var (w2, reply) := StoreAll(c, w1);
    assert w1.specs == [Some(c.entity.createSpec(d).1)] && w1.nodes == [Some(c.entity.createSpec(d).0)];
    LogStores(w1.trace, Wrote(w1.specs, reply.Ok?));
    LogStores(w2.trace, Marked(0));
  }

  /** What a core makes of a mutation of the right type with draft d, when it checks another draft
      (or the same): it rejects the checked draft, or it asks the database once to store the
      specification of d. */
  ghost predicate CoreOf(c: Chain, t: seq<Event>, checked: Draft, d: Draft, r: (World, Reply))
  {
    var failure, spec := c.entity.check(checked), [Some(c.entity.createSpec(d).1)];
    if failure.Some? then Stores(r.0.trace) == [] && r.1 == Err(Invalid(failure.value))
    else
      var answer := c.store(t + [Built(0, checked, d)], spec);
      && Stores(r.0.trace) == [answer.None?] && r.0.specs == spec && r.0.nodes == [Some(c.entity.createSpec(d).0)]
      && r.1 == if answer.Some? then Err(answer.value) else Ok(Node(c.entity.createSpec(d).0))
  }

  lemma {:induction false} ForeignCore(c: Chain, w: World, m: nat)
    requires Ready(c, 0, 0, w, m) && |c.builders| == 1 && w.mutations[m].foreign
    ensures Core(c, w, m) == (Log(w, Rejected(0)), Err(UnexpectedMutation))
  {
    if c.mode.Bulk? {
      assert BulkCore(c, 0, w, m) == (Log(w, Rejected(0)), Err(UnexpectedMutation));
    } else {
      assert SingleCore(c, w, m) == (Log(w, Rejected(0)), Err(UnexpectedMutation));
    }
  }

  lemma {:induction false} BulkCoreOf(c: Chain, w: World, m: nat)
    requires Fits(c, w) && c.mode.Bulk? && |c.builders| == 1 && m < |w.mutations| && !w.mutations[m].foreign
    requires Stores(w.trace) == []
    ensures CoreOf(c, w.trace, w.mutations[w.current[c.builders[0]]].draft, w.mutations[m].draft, BulkCore(c, 0, w, m))
  {
    LogStores(w.trace, Rejected(0));
    var checked := w.mutations[w.current[c.builders[0]]].draft;
    TailStores(c, w.(current := w.current[c.builders[0] := m]), checked, m);
  }

  lemma {:induction false} SingleCoreOf(c: Chain, w: World, m: nat)
    requires Fits(c, w) && c.mode.Single? && m < |w.mutations| && !w.mutations[m].foreign && Stores(w.trace) == []
    ensures CoreOf(c, w.trace, w.mutations[m].draft, w.mutations[m].draft, SingleCore(c, w, m))
  {
    var own, draft := w.current[c.builders[0]], w.mutations[m].draft;
    var w0 := w.(mutations := w.mutations[own := w.mutations[m]]);
    assert w0.mutations[own].draft == draft;
    LogStores(w0.trace, Rejected(0));
    TailStores(c, w0, draft, own);
  }

  /** The draft that the core checks: the builder's own in bulk, the forwarded one otherwise. */
  function CheckedDraft(c: Chain, w: World, m: nat): Draft
    requires Ready(c, 0, 0, w, m)
  {
    if c.mode.Bulk? then w.mutations[w.current[c.builders[0]]].draft else w.mutations[m].draft
  }

  /** How a Save of one builder ends: refused by a hook, reached by a mutation of another type, or
      decided by the core. An error of the core is the error of Save; after a success the hooks
      have the last word on what is returned. */
  ghost predicate Ends<T>(c: Chain, arrival: Result<(World, nat), Error>, end: World, result: Result<T, Error>)
    requires arrival.Ok? ==> Ready(c, 0, 0, arrival.value.0, arrival.value.1)
  {
    if arrival.Err? then Stores(end.trace) == [] && result == Err(arrival.error)
    else
      var (wa, ma) := arrival.value;
      if wa.mutations[ma].foreign then Stores(end.trace) == [] && result == Err(UnexpectedMutation)
      else
        var checked, d := CheckedDraft(c, wa, ma), wa.mutations[ma].draft;
        var failure := c.entity.check(checked);
        if failure.Some? then Stores(end.trace) == [] && result == Err(Invalid(failure.value))
        else
          var spec := [Some(c.entity.createSpec(d).1)];
          var answer := c.store(wa.trace + [Built(0, checked, d)], spec);
          && Stores(end.trace) == [answer.None?] && end.specs == spec
          && end.nodes == [Some(c.entity.createSpec(d).0)]
          && (answer.Some? ==> result == Err(answer.value))
  }

  lemma {:induction false} RunEnds(c: Chain, w: World)
    requires Fits(c, w) && |c.builders| == 1 && AllRelay(c) && Stores(w.trace) == []
    ensures var m := w.current[c.builders[0]];
      var r, arrival := Run(c, 0, 0, w, m), Arrive(c, 0, w, m);
      && (arrival.Ok? ==> Ready(c, 0, 0, arrival.value.0, arrival.value.1))
      && Ends(c, arrival, r.0, r.1)
  {
    var m := w.current[c.builders[0]];
    RunIsOuter(c, 0, w, m);
    var arrival := Arrive(c, 0, w, m);
    if arrival.Ok? {
      var (wa, ma) := arrival.value;
      if wa.mutations[ma].foreign {
        LogStores(wa.trace, Rejected(0));
        ForeignCore(c, wa, ma);
      } else if c.mode.Bulk? {
        BulkCoreOf(c, wa, ma);
      } else {
        SingleCoreOf(c, wa, ma);
      }
    }
  }

  /** Both forms, for every builder and every stack of relaying hooks. */
  lemma {:induction false} BothEnd(c: Chain, stamp: Stamp, w: World)
    requires IsStart(c, w) && c.mode.Bulk? && |c.builders| == 1 && AllRelay(c)
    ensures var (w1, failure) := SetDefaults(c, [stamp], w, 0);
      var arrival := Arrive(c, 0, w1, w1.current[c.builders[0]]);
      var (wb, bulk) := BulkSave(c, [stamp], w);
      var (ws, single) := SingleSave(AsSingle(c), stamp, w);
      && (arrival.Ok? ==> Ready(c, 0, 0, arrival.value.0, arrival.value.1))
      && Ends(c, arrival, wb, bulk)
      && if failure.Some? then ws == w1 && single == Err(Invalid(failure.value))
         else Ends(AsSingle(c), arrival, ws, single)
  {
    var w1 := SetDefaults(c, [stamp], w, 0).0;
    assert AllDefaults(c, [stamp], w, 0) == w;
    assert AllDefaults(c, [stamp], w, 1) == w1;
    RunEnds(c, w1);
    RunEnds(AsSingle(c), w1);
    ArrivalIsTheSame(c, 0, w1, w1.current[c.builders[0]]);
  }

  /** Both drafts pass and the database refuses nothing. */
  lemma {:induction false} BothStore(c: Chain, stamp: Stamp, w: World, wa: World, ma: nat)
    requires IsStart(c, w) && c.mode.Bulk? && |c.builders| == 1 && AllRelay(c)
    requires SetDefaults(c, [stamp], w, 0).1.None? && forall t, specs :: c.store(t, specs).None?
    requires var w1 := SetDefaults(c, [stamp], w, 0).0; Arrive(c, 0, w1, w1.current[c.builders[0]]) == Ok((wa, ma))
    requires Ready(c, 0, 0, wa, ma) && !wa.mutations[ma].foreign && c.entity.check(wa.mutations[ma].draft).None?
    requires c.entity.check(wa.mutations[wa.current[c.builders[0]]].draft).None?
    ensures var wb, ws := BulkSave(c, [stamp], w).0, SingleSave(AsSingle(c), stamp, w).0;
      && Stores(wb.trace) == Stores(ws.trace) == [true]
      && wb.specs == ws.specs == [Some(c.entity.createSpec(wa.mutations[ma].draft).1)]
  {
    BothEnd(c, stamp, w);
  }

  // ---------------------------------------------------------------------------------------
  // What Save returns behind hooks that hand the reply on
  // ---------------------------------------------------------------------------------------

  /** Such hooks leave the end of the core as it is, but for the trace. */
  lemma {:induction false} RunIsCore(c: Chain, j: nat, w: World, m: nat)
    requires Ready(c, 0, j, w, m) && AllHandOn(c)
    ensures var r, a := Run(c, 0, j, w, m), Arrive(c, j, w, m);
      a.Ok? ==>
        && Ready(c, 0, 0, a.value.0, a.value.1) && a.value.0.current == w.current
        && var core := Core(c, a.value.0, a.value.1);
          r.1 == core.1 && r.0.mutations == core.0.mutations && r.0.current == core.0.current
    decreases |c.Hooks(0)| - j
  {
    if j < |c.Hooks(0)| {
      var w1 := Log(w, Enter(0, j));
      assert HandsOn(c.Hooks(0)[j]);
      ConsultOnce(c, 0, j, w1, m);
      var step := c.Hooks(0)[j].step(w1.trace, w.mutations[m].draft, None);
      if step.Forward? {
        var (w2, m2) := Pass(Edit(w1, m, step.edit), m, step.arg);
        RunIsCore(c, j + 1, w2, m2);
      }
    }
  }

  /** A single Save behind such hooks returns the entity of the draft that it stored, and the builder's
      mutation is done and has that entity's id. */
  lemma {:induction false} SingleReturnsWhatItStored(c: Chain, stamp: Stamp, w: World)
    requires IsStart(c, w) && c.mode.Single? && AllHandOn(c)
    ensures var (ws, single) := SingleSave(c, stamp, w);
      single.Ok? ==>
        var w1 := SetDefaults(c, [stamp], w, 0).0;
        var arrival := Arrive(c, 0, w1, w1.current[c.builders[0]]);
        && Stores(ws.trace) == [true] && arrival.Ok? && arrival.value.1 < |arrival.value.0.mutations|
        && var d := arrival.value.0.mutations[arrival.value.1].draft;
          && ws.specs == [Some(c.entity.createSpec(d).1)] && single == Ok(c.entity.createSpec(d).0)
          && Fits(c, ws) && IsDone(c, ws, 0)
          && ws.mutations[ws.current[c.builders[0]]].draft.id == Some(c.entity.createSpec(d).0.id)
  {
    var w1 := SetDefaults(c, [stamp], w, 0).0;
    var m := w1.current[c.builders[0]];
    if SingleSave(c, stamp, w).1.Ok? {
      assert AllRelay(c);
      RunEnds(c, w1);
      RunIsCore(c, 0, w1, m);
      var (wa, ma) := Arrive(c, 0, w1, m).value;
      SingleCoreEnds(c, wa, ma);
    }
  }

  lemma {:induction false} SingleCoreEnds(c: Chain, w: World, m: nat)
    requires Fits(c, w) && c.mode.Single? && m < |w.mutations|
    ensures var (w', reply) := SingleCore(c, w, m);
      var d := w.mutations[m].draft;
      && w'.current == w.current
      && (reply.Ok? ==>
            && reply == Ok(Node(c.entity.createSpec(d).0)) && IsDone(c, w', 0)
            && w'.mutations[w'.current[c.builders[0]]].draft.id == Some(c.entity.createSpec(d).0.id))
  {
    var own := w.current[c.builders[0]];
    var w0 := w.(mutations := w.mutations[own := w.mutations[m]]);
    assert w0.mutations[own].draft == w.mutations[m].draft;
  }

  /** What the comparison turns on once a mutation of the right type has reached the core: what the
      checks say of the builder's own draft and of the forwarded one. */
  ghost predicate Parts(stored: bool, stored': bool, specs: seq<Option<Spec>>, specs': seq<Option<Spec>>,
                        error: Option<Error>, error': Option<Error>, own: Option<Failure>, forwarded: Option<Failure>)
  {
    && (stored <==> own.None?) && (stored' <==> forwarded.None?)
    && (stored && stored' ==> specs == specs')
    && (!stored && !stored' ==> error.Some? && error'.Some? && (error == error' <==> own == forwarded))
  }

  function ErrorOf<T>(r: Result<T, Error>): Option<Error>
  {
    if r.Err? then Some(r.error) else None
  }

  /** The bulk checks the builder's own mutation and stores the one that its hooks forwarded; the
      single form checks what it stores. Otherwise the two do the same. If a hook refuses, or
      forwards a mutation of another type, neither stores anything and both fail with one error.
      Or else the bulk stores exactly if the builder's own draft passes the checks, and the single
      form exactly if the forwarded one does; if both store, they store the same; and if neither
      does, they fail with the same error exactly if the checks say the same of both drafts. */
  lemma {:induction false} FormsPartOverSubstitutes(c: Chain, stamp: Stamp, w: World)
    requires IsStart(c, w) && c.mode.Bulk? && |c.builders| == 1 && AllRelay(c)
    requires SetDefaults(c, [stamp], w, 0).1.None?
    ensures var w1 := SetDefaults(c, [stamp], w, 0).0;
      var (wb, bulk) := BulkSave(c, [stamp], w);
      var (ws, single) := SingleSave(AsSingle(c), stamp, w);
      var arrival := Arrive(c, 0, w1, w1.current[c.builders[0]]);
      && (arrival.Ok? ==> Ready(c, 0, 0, arrival.value.0, arrival.value.1))
      && if arrival.Err? || arrival.value.0.mutations[arrival.value.1].foreign then
           && Stores(wb.trace) == Stores(ws.trace) == []
           && bulk.Err? && single.Err? && bulk.error == single.error
         else
           var (wa, ma) := arrival.value;
           var own, forwarded := wa.mutations[wa.current[c.builders[0]]].draft, wa.mutations[ma].draft;
           Parts(Stores(wb.trace) != [], Stores(ws.trace) != [], wb.specs, ws.specs, ErrorOf(bulk), ErrorOf(single),
                 c.entity.check(own), c.entity.check(forwarded))
  {
    BothEnd(c, stamp, w);
  }

  /** The two forms part again where a default function is missing: the single form fails and does
      nothing, the bulk does not look. It ends, for every stack of relaying hooks, as it would have
      with the defaults set so far, and so stores what reaches the core exactly if the builder's
      own draft passes the checks. */
  lemma {:induction false} MissingDefaultPartsThem(c: Chain, stamp: Stamp, w: World)
    requires IsStart(c, w) && c.mode.Bulk? && |c.builders| == 1 && AllRelay(c)
    requires SetDefaults(c, [stamp], w, 0).1.Some?
    ensures var (w1, failure) := SetDefaults(c, [stamp], w, 0);
      var (wb, bulk) := BulkSave(c, [stamp], w);
      var (ws, single) := SingleSave(AsSingle(c), stamp, w);
      var arrival := Arrive(c, 0, w1, w1.current[c.builders[0]]);
      && ws.trace == [] && single == Err(Invalid(failure.value))
      && (arrival.Ok? ==> Ready(c, 0, 0, arrival.value.0, arrival.value.1))
      && (Stores(wb.trace) != [] <==>
            && arrival.Ok? && !arrival.value.0.mutations[arrival.value.1].foreign
            && c.entity.check(CheckedDraft(c, arrival.value.0, arrival.value.1)).None?)
      && (Stores(wb.trace) != [] ==>
            wb.specs == [Some(c.entity.createSpec(arrival.value.0.mutations[arrival.value.1].draft).1)])
  {
    BothEnd(c, stamp, w);
  }

  // ---------------------------------------------------------------------------------------
  // Instances
  // ---------------------------------------------------------------------------------------

  /** A hook that puts a mutation of its own in place of the one it was given. */
  function Substitute(d: Draft): Hook
  {
    Hook(1, (t, own, last: Option<Reply>) =>
      if last.None? then Forward(own, Another(d, false)) else Answer(own, last.value))
  }

  /** Behind a hook that substitutes a draft, the bulk judges the builder's own draft and the single
      form the substitute. */
  lemma {:induction false} SubstituteArrives(c: Chain, stamp: Stamp, w: World, d: Draft)
    requires IsStart(c, w) && c.mode.Bulk? && |c.builders| == 1 && |c.stacks| == 1 && c.Hooks(0) == [Substitute(d)]
    requires SetDefaults(c, [stamp], w, 0).1.None?
    ensures var own := SetDefaults(c, [stamp], w, 0).0.mutations[w.current[c.builders[0]]].draft;
      var (wb, bulk) := BulkSave(c, [stamp], w);
      var (ws, single) := SingleSave(AsSingle(c), stamp, w);
      Parts(Stores(wb.trace) != [], Stores(ws.trace) != [], wb.specs, ws.specs, ErrorOf(bulk), ErrorOf(single),
            c.entity.check(own), c.entity.check(d))
  {
    assert Relays(Substitute(d));
    FormsPartOverSubstitutes(c, stamp, w);
    var w1, m := SetDefaults(c, [stamp], w, 0).0, w.current[c.builders[0]];
    var (w2, m2) := Pass(Edit(Log(w1, Enter(0, 0)), m, w1.mutations[m].draft), m, Another(d, false));
    assert Arrive(c, 1, w2, m2) == Ok((w2, m2));
    assert Arrive(c, 0, w1, m) == Ok((w2, m2));
  }

  /** So behind such a hook the bulk stores a draft that fails the checks. */
  lemma {:induction false} UncheckedDraftIsStored(c: Chain, stamp: Stamp, w: World, d: Draft)
    requires IsStart(c, w) && c.mode.Bulk? && |c.builders| == 1 && |c.stacks| == 1 && c.Hooks(0) == [Substitute(d)]
    requires SetDefaults(c, [stamp], w, 0).1.None?
    requires c.entity.check(SetDefaults(c, [stamp], w, 0).0.mutations[w.current[c.builders[0]]].draft).None?
    requires c.entity.check(d).Some?
    ensures Stores(BulkSave(c, [stamp], w).0.trace) != []
    ensures Stores(SingleSave(AsSingle(c), stamp, w).0.trace) == []
  {
    SubstituteArrives(c, stamp, w, d);
  }
}
