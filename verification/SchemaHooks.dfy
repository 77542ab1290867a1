// The hook that the schema of share files declares, at the end of every builder's stack: what it
// guarantees of stored rows whatever hooks are registered before it, and what happens when the
// program has not installed it.
module SchemaHooks {
  import opened Wrappers
  import opened ShareFiles
  import opened MutatorChain
  import opened ChainTheorems
  import opened SaveTheorems
  import opened FormTheorems
  import HookRegistry

  // ---------------------------------------------------------------------------------------
  // The hook
  // ---------------------------------------------------------------------------------------

  const BLOCK_BYTES: Int64 := 8 * 1024 * 1024

  /** transferBlockCount: division that truncates towards zero, rounded up if there is a rest. */
  function BlockCount(size: Int64): int
  {
    var n: int := size;
    var quotient := if n >= 0 then n / BLOCK_BYTES else -(-n / BLOCK_BYTES);
    if n == 0 then 0 else if n % BLOCK_BYTES != 0 then quotient + 1 else quotient
  }

  /** For a size from zero on, the least number of blocks that hold it; a negative one counts its
      whole blocks downwards, and one upwards if there is a rest. */
  lemma {:induction false} BlockCountIs(size: Int64)
    ensures var n, s: int := BlockCount(size), size;
      && (s >= 0 ==> (n - 1) * BLOCK_BYTES < s <= n * BLOCK_BYTES)
      && (s < 0 ==> -s == -n * BLOCK_BYTES || (1 - n) * BLOCK_BYTES < -s < (2 - n) * BLOCK_BYTES)
  {
  }

  predicate Counts(d: Draft)
  {
    d.sizeBytes.Some? && d.blockHashes.Some? && |d.blockHashes.value| == BlockCount(d.sizeBytes.value)
  }

  /** validateShareFileMutation */
  function Validate(): Hook
  {
    Hook(1, (t, d: Draft, last: Option<Reply>) =>
      if last.Some? then Answer(d, last.value)
      else if d.creates && !Counts(d) then Answer(d, Err(HookError(1)))
      else Forward(d, Same))
  }

  /** The same equation of a specification. */
  predicate SpecCounts(spec: Spec)
  {
    && SIZE_BYTES in spec.fields && BLOCK_HASHES in spec.fields
    && spec.fields[SIZE_BYTES].Number? && spec.fields[BLOCK_HASHES].Strings?
    && |spec.fields[BLOCK_HASHES].ss| == BlockCount(spec.fields[SIZE_BYTES].n)
  }

  /** A specification satisfies it exactly if the draft that it was made from does. */
  lemma {:induction false} CountsInSpec(d: Draft)
    ensures SpecCounts(CreateSpec(d).1) <==> Counts(d)
  {
    var spec := CreateSpec(d).1;
    assert SIZE_BYTES in spec.fields <==> d.sizeBytes.Some?;
    assert BLOCK_HASHES in spec.fields <==> d.blockHashes.Some?;
    if d.sizeBytes.Some? && d.blockHashes.Some? {
      assert spec.fields[SIZE_BYTES] == FieldValue(d, SIZE_BYTES).value == Number(d.sizeBytes.value);
      assert spec.fields[BLOCK_HASHES] == FieldValue(d, BLOCK_HASHES).value == Strings(d.blockHashes.value);
    }
  }

  /** What the hook lets through. */
  predicate Passes(d: Draft)
  {
    d.creates ==> Counts(d)
  }

  // ---------------------------------------------------------------------------------------
  // What reaches the database
  // ---------------------------------------------------------------------------------------

  /** Every stack ends with the schema's hook. */
  ghost predicate Guarded(c: Chain)
  {
    forall b :: 0 <= b < |c.stacks| ==> c.stacks[b] != [] && c.stacks[b][|c.stacks[b]| - 1] == Validate()
  }

  /** A hook that leaves operations alone and forwards no mutation of another operation. */
  ghost predicate KeepsOp(h: Hook)
  {
    forall t, d: Draft, last :: d.creates ==>
      var step := h.step(t, d, last);
      step.edit.creates && (step.Forward? && step.arg.Another? ==> step.arg.draft.creates)
  }

  ghost predicate AllKeepOp(c: Chain)
  {
    forall b, j :: 0 <= b < |c.stacks| && 0 <= j < |c.stacks[b]| ==> KeepsOp(c.stacks[b][j])
  }

  predicate AllCreate(w: World)
  {
    forall m :: 0 <= m < |w.mutations| ==> w.mutations[m].draft.creates
  }

  /** Whatever is built passes the hook's guard; `keeps` adds that its operation is to create. */
  ghost predicate VettedEvent(keeps: bool, e: Event)
  {
    e.Built? ==> Passes(e.used) && (keeps ==> e.used.creates)
  }

  ghost predicate VettedWorld(keeps: bool, w: World)
  {
    && (forall x :: 0 <= x < |w.trace| ==> VettedEvent(keeps, w.trace[x]))
    && (keeps ==> AllCreate(w))
  }

  ghost predicate Setting(keeps: bool, rules: Rules, c: Chain)
  {
    c.entity == ShareFileEntity(rules) && Guarded(c) && (keeps ==> AllKeepOp(c))
  }

  /** For any hooks in front of the schema's (retries and swallowed errors included), in both
      forms. */
  lemma {:induction false} RunVets(keeps: bool, rules: Rules, c: Chain, i: nat, j: nat, w: World, m: nat)
    requires Ready(c, i, j, w, m) && Setting(keeps, rules, c) && VettedWorld(keeps, w)
    requires j == |c.Hooks(i)| ==> Passes(w.mutations[m].draft)
    ensures VettedWorld(keeps, Run(c, i, j, w, m).0)
    decreases |c.builders| - i, |c.Hooks(i)| - j, 1, 0
  {
    if j < |c.Hooks(i)| {
      ConsultVets(keeps, rules, c, i, j, Log(w, Enter(i, j)), m, None, c.Hooks(i)[j].tries);
    } else if c.mode.Bulk? {
      BulkCoreVets(keeps, rules, c, i, w, m);
    } else {
      SingleCoreVets(keeps, rules, c, w, m);
    }
  }

  lemma {:induction false} ConsultVets(keeps: bool, rules: Rules, c: Chain, i: nat, j: nat, w: World, m: nat,
                                       last: Option<Reply>, left: nat)
    requires Ready(c, i, j, w, m) && j < |c.Hooks(i)| && Setting(keeps, rules, c) && VettedWorld(keeps, w)
    ensures VettedWorld(keeps, Consult(c, i, j, w, m, last, left).0)
    decreases |c.builders| - i, |c.Hooks(i)| - j, 0, left
  {
    var step := c.Hooks(i)[j].step(w.trace, w.mutations[m].draft, last);
    assert keeps ==> KeepsOp(c.Hooks(i)[j]);
    assert j == |c.Hooks(i)| - 1 ==> c.Hooks(i)[j] == Validate();
    if step.Forward? && left > 0 {
      var (w1, m1) := Pass(Edit(w, m, step.edit), m, step.arg);
      RunVets(keeps, rules, c, i, j + 1, w1, m1);
      var (w2, reply) := Run(c, i, j + 1, w1, m1);
      ConsultVets(keeps, rules, c, i, j, w2, m, Some(reply), left - 1);
    }
  }

  lemma {:induction false} BuildVets(keeps: bool, c: Chain, w: World, i: nat, checked: Draft, m: nat)
    requires i < |w.nodes| == |w.specs| && m < |w.mutations| && VettedWorld(keeps, w) && Passes(w.mutations[m].draft)
    ensures VettedWorld(keeps, Build(c, w, i, checked, m))
  {
    LogVets(keeps, w, Built(i, checked, w.mutations[m].draft));
  }

  lemma {:induction false} LogVets(keeps: bool, w: World, e: Event)
    requires VettedWorld(keeps, w) && VettedEvent(keeps, e)
    ensures VettedWorld(keeps, Log(w, e))
  {
  }

  lemma {:induction false} StoreVets(keeps: bool, c: Chain, w: World)
    requires VettedWorld(keeps, w)
    ensures VettedWorld(keeps, StoreAll(c, w).0)
  {
    LogVets(keeps, w, Wrote(w.specs, c.store(w.trace, w.specs).None?));
  }

  lemma {:induction false} MarkVets(keeps: bool, w: World, i: nat, m: nat)
    requires i < |w.nodes| && w.nodes[i].Some? && m < |w.mutations| && VettedWorld(keeps, w)
    ensures VettedWorld(keeps, MarkDone(w, i, m).0)
  {
  }

  lemma {:induction false} DescentVets(keeps: bool, rules: Rules, c: Chain, i: nat, w: World)
    requires Fits(c, w) && i < |c.builders| && c.mode.Bulk? && Setting(keeps, rules, c) && VettedWorld(keeps, w)
    ensures VettedWorld(keeps, Descend(c, i, w).0)
    decreases |c.builders| - i, 0, 0, 0
  {
    if i < |c.builders| - 1 {
      assert c.stacks[c.builders[i + 1]] != [];
      RunVets(keeps, rules, c, i + 1, 0, w, w.current[c.builders[i + 1]]);
    } else {
      StoreVets(keeps, c, w);
    }
  }

  lemma {:induction false} BulkCoreVets(keeps: bool, rules: Rules, c: Chain, i: nat, w: World, m: nat)
    requires Fits(c, w) && i < |c.builders| && m < |w.mutations| && c.mode.Bulk?
    requires Setting(keeps, rules, c) && VettedWorld(keeps, w)
    requires Passes(w.mutations[m].draft)
    ensures VettedWorld(keeps, BulkCore(c, i, w, m).0)
    decreases |c.builders| - i, 0, 0, 1
  {
    var checked := w.mutations[w.current[c.builders[i]]].draft;
    if !w.mutations[m].foreign && c.entity.check(checked).None? {
      var w0 := w.(current := w.current[c.builders[i] := m]);
      var w1 := Build(c, w0, i, checked, m);
      BuildVets(keeps, c, w0, i, checked, m);
      DescentVets(keeps, rules, c, i, w1);
      var (w2, reply) := Descend(c, i, w1);
      if reply.Ok? {
        MarkVets(keeps, w2, i, m);
      }
    } else {
      LogVets(keeps, w, Rejected(i));
    }
  }

  lemma {:induction false} SingleCoreVets(keeps: bool, rules: Rules, c: Chain, w: World, m: nat)
    requires Fits(c, w) && |c.builders| == 1 && m < |w.mutations| && Setting(keeps, rules, c) && VettedWorld(keeps, w)
    requires Passes(w.mutations[m].draft)
    ensures VettedWorld(keeps, SingleCore(c, w, m).0)
  {
    var own := w.current[c.builders[0]];
    var w0 := w.(mutations := w.mutations[own := w.mutations[m]]);
    if !w.mutations[m].foreign && c.entity.check(w0.mutations[own].draft).None? {
      var w1 := Build(c, w0, 0, w0.mutations[own].draft, own);
      BuildVets(keeps, c, w0, 0, w0.mutations[own].draft, own);
      StoreVets(keeps, c, w1);
      var (w2, reply) := StoreAll(c, w1);
      if reply.Ok? {
        MarkVets(keeps, w2, 0, own);
      }
    }
  }

  // ---------------------------------------------------------------------------------------
  // Builders made by clients
  // ---------------------------------------------------------------------------------------

  /** The hooks of a builder as the registry issued them; `named` says what registered hooks do. */
  function Interpreted(hooks: seq<HookRegistry.Hook>, named: nat -> Hook): seq<Hook>
  {
    seq(|hooks|, k requires 0 <= k < |hooks| => if hooks[k].Validate? then Validate() else named(hooks[k].name))
  }

  /** Every builder of the chain was created by some client after some program had registered
      hooks for share files, through whichever clients. */
  ghost predicate MadeByClients(c: Chain, programs: seq<seq<HookRegistry.Op>>, named: nat -> Hook)
  {
    && |programs| == |c.stacks|
    && forall b :: 0 <= b < |c.stacks| ==>
         c.stacks[b] == Interpreted(HookRegistry.RegisteredBy(programs[b], HookRegistry.SHARE_FILE) +
                                    HookRegistry.SchemaHooks(HookRegistry.SHARE_FILE), named)
  }

  lemma {:induction false} ClientsGuard(c: Chain, programs: seq<seq<HookRegistry.Op>>, named: nat -> Hook)
    requires MadeByClients(c, programs, named)
    ensures Guarded(c)
  {
    assert HookRegistry.SchemaHooks(HookRegistry.SHARE_FILE) == [HookRegistry.Validate(HookRegistry.SHARE_FILE)];
  }

  lemma {:induction false} DefaultsKeepOp(rules: Rules, c: Chain, stamps: seq<Stamp>, w: World, k: nat)
    requires Fits(c, w) && k <= |c.builders| == |stamps| && c.entity == ShareFileEntity(rules) && AllCreate(w)
    ensures AllCreate(AllDefaults(c, stamps, w, k))
  {
    if k > 0 {
      DefaultsKeepOp(rules, c, stamps, w, k - 1);
    }
  }

  /** The trace of a Save in either form. */
  function SaveTrace(c: Chain, stamps: seq<Stamp>, w: World): seq<Event>
    requires Fits(c, w) && |stamps| == |c.builders|
  {
    if c.mode.Bulk? then BulkSave(c, stamps, w).0.trace else SingleSave(c, stamps[0], w).0.trace
  }

  /** Specification k of the attempt to store at place x of a trace was made from the draft that was
      built last for place k. */
  function Source(t: seq<Event>, x: nat, k: nat): Option<Draft>
    requires x < |t|
  {
    var b := LastBuilt(t[..x], k);
    if b < 0 then None else Some(t[b].used)
  }

  /** Whatever hooks are registered before the builders are made, through whichever clients: of every
      specification that either Save hands to the database, made from draft d, the block hashes
      fail to count the blocks if and only if d's operation was no longer to create when it came to
      the schema's hook, and d does not count. If no hook touches operations there is none such. */
  lemma {:induction false} StoredBlocksCount(rules: Rules, c: Chain, programs: seq<seq<HookRegistry.Op>>,
                                             named: nat -> Hook, stamps: seq<Stamp>, w: World, x: nat, k: nat)
    requires IsStart(c, w) && c.entity == ShareFileEntity(rules) && |stamps| == |c.builders|
    requires MadeByClients(c, programs, named)
    requires var t := SaveTrace(c, stamps, w); x < |t| && t[x].Wrote? && k < |t[x].specs|
    ensures var t := SaveTrace(c, stamps, w);
      var spec, d := t[x].specs[k], Source(t, x, k);
      && spec.Some? && d.Some? && spec.value == CreateSpec(d.value).1
      && (!SpecCounts(spec.value) <==> !d.value.creates && !Counts(d.value))
      && (AllKeepOp(c) && AllCreate(w) ==> SpecCounts(spec.value))
  {
    var t := SaveTrace(c, stamps, w);
    if c.mode.Bulk? {
      StoresOnlyWhatWasBuilt(c, stamps, w);
    } else {
      SingleStoresOnlyWhatWasBuilt(c, stamps[0], w);
    }
    SoundAt(c, t, x);
    var b := LastBuilt(t[..x], k);
    assert t[..x][b] == t[b];
    ClientsGuard(c, programs, named);
    SaveVets(false, rules, c, stamps, w);
    assert VettedEvent(false, t[b]);
    if AllKeepOp(c) && AllCreate(w) {
      SaveVets(true, rules, c, stamps, w);
      assert VettedEvent(true, t[b]);
    }
    assert c.entity.createSpec(t[b].used) == CreateSpec(t[b].used);
    CountsInSpec(t[b].used);
  }

  lemma {:induction false} SaveVets(keeps: bool, rules: Rules, c: Chain, stamps: seq<Stamp>, w: World)
    requires IsStart(c, w) && |stamps| == |c.builders| && Setting(keeps, rules, c) && (keeps ==> AllCreate(w))
    ensures var t := SaveTrace(c, stamps, w);
      forall x :: 0 <= x < |t| ==> VettedEvent(keeps, t[x])
  {
    if c.builders != [] {
      var w1 := if c.mode.Bulk? then AllDefaults(c, stamps, w, |c.builders|) else SetDefaults(c, [stamps[0]], w, 0).0;
      if keeps {
        DefaultsKeepOp(rules, c, stamps, w, |c.builders|);
      }
      assert Guarded(c);
      RunVets(keeps, rules, c, 0, 0, w1, w1.current[c.builders[0]]);
    }
  }

  // ---------------------------------------------------------------------------------------
  // Told before the call
  // ---------------------------------------------------------------------------------------

  /** What arrives at the core has come through the schema's hook. */
  lemma {:induction false} ArrivalPasses(c: Chain, j: nat, w: World, m: nat)
    requires Ready(c, 0, j, w, m) && Guarded(c) && (j == |c.Hooks(0)| ==> Passes(w.mutations[m].draft))
    ensures var a := Arrive(c, j, w, m);
      a.Ok? ==> a.value.1 < |a.value.0.mutations| && Passes(a.value.0.mutations[a.value.1].draft)
    decreases |c.Hooks(0)| - j
  {
    if j < |c.Hooks(0)| {
      var step := c.Hooks(0)[j].step(w.trace + [Enter(0, j)], w.mutations[m].draft, None);
      assert j == |c.Hooks(0)| - 1 ==> c.Hooks(0)[j] == Validate();
      if step.Forward? {
        var (w1, m1) := Pass(Edit(Log(w, Enter(0, j)), m, step.edit), m, step.arg);
        ArrivalPasses(c, j + 1, w1, m1);
      }
    }
  }

  /** For one builder, and relaying hooks in front of the schema's: whatever either form stores is
      the specification of the draft d to which the hooks lead from the builder's own, and its block
      hashes fail to count its blocks if and only if d is not to create and does not count. */
  lemma {:induction false} ArrivalDecidesCount(rules: Rules, c: Chain, stamp: Stamp, w: World)
    requires IsStart(c, w) && c.mode.Bulk? && |c.builders| == 1 && AllRelay(c) && Guarded(c)
    requires c.entity == ShareFileEntity(rules)
    ensures var w1 := SetDefaults(c, [stamp], w, 0).0;
      var wb, ws := BulkSave(c, [stamp], w).0, SingleSave(AsSingle(c), stamp, w).0;
      Stores(wb.trace) != [] || Stores(ws.trace) != [] ==>
        var arrival := Arrive(c, 0, w1, w1.current[c.builders[0]]);
        && arrival.Ok? && arrival.value.1 < |arrival.value.0.mutations|
        && var d := arrival.value.0.mutations[arrival.value.1].draft;
          && (Stores(wb.trace) != [] ==> wb.specs == [Some(CreateSpec(d).1)])
          && (Stores(ws.trace) != [] ==> ws.specs == [Some(CreateSpec(d).1)])
          && (!SpecCounts(CreateSpec(d).1) <==> !d.creates && !Counts(d))
  {
    var w1 := SetDefaults(c, [stamp], w, 0).0;
    BothEnd(c, stamp, w);
    assert Guarded(c);
    ArrivalPasses(c, 0, w1, w1.current[c.builders[0]]);
    var arrival := Arrive(c, 0, w1, w1.current[c.builders[0]]);
    if arrival.Ok? {
      var d := arrival.value.0.mutations[arrival.value.1].draft;
      assert c.entity.createSpec(d) == CreateSpec(d);
      CountsInSpec(d);
    }
  }

  // ---------------------------------------------------------------------------------------
  // Programs that have not installed it
  // ---------------------------------------------------------------------------------------

  /** A stack as the code finds it, with nil hooks. */
  type Slots = seq<Option<Hook>>

  predicate HasNil(slots: Slots)
  {
    exists j :: 0 <= j < |slots| && slots[j].None?
  }

  /** The chain has the hooks of the stacks that have no nil among them. */
  ghost predicate Fills(c: Chain, slots: seq<Slots>)
  {
    && |c.stacks| == |slots|
    && forall b :: 0 <= b < |slots| && !HasNil(slots[b]) ==>
         |c.stacks[b]| == |slots[b]| && forall j :: 0 <= j < |slots[b]| ==> slots[b][j] == Some(c.stacks[b][j])
  }

  /** The first place from k on whose builder has a nil hook. */
  function FirstNil(c: Chain, slots: seq<Slots>, k: nat): (p: nat)
    requires c.Valid() && Fills(c, slots) && k <= |c.builders|
    ensures k <= p <= |c.builders|
    decreases |c.builders| - k
  {
    if k == |c.builders| || HasNil(slots[c.builders[k]]) then k else FirstNil(c, slots, k + 1)
  }

  datatype Outcome<T> = Panicked | Returned(result: T)

  /** How ShareFileCreateBulk.Save ends: wrapping a nil hook around a mutator is a panic, once the
      defaults of the builders up to that one are set. */
  function BulkOutcome(c: Chain, slots: seq<Slots>, stamps: seq<Stamp>, w: World)
      : (World, Outcome<Result<seq<Option<Fields>>, Error>>)
    requires Fits(c, w) && |stamps| == |c.builders| && c.mode.Bulk? && Fills(c, slots)
  {
    var p := FirstNil(c, slots, 0);
    if p < |c.builders| then (AllDefaults(c, stamps, w, p + 1), Panicked)
    else var (w', r) := BulkSave(c, stamps, w); (w', Returned(r))
  }

  /** ShareFileCreate.Save: withHooks looks for nil hooks before it runs any. */
  function SingleOutcome(c: Chain, slots: seq<Slots>, stamp: Stamp, w: World): (World, Result<Fields, Error>)
    requires Fits(c, w) && c.mode.Single? && Fills(c, slots)
  {
    var (w1, failure) := SetDefaults(c, [stamp], w, 0);
    if failure.Some? then (w1, Err(Invalid(failure.value)))
    else if HasNil(slots[c.builders[0]]) then (w1, Err(UninitializedHook))
    else SingleSave(c, stamp, w)
  }

  /** A mutator by the link of the chain that it stands for: hook j of builder i around all that it
      wraps. */
  datatype Link = Link(i: nat, j: nat)

  lemma {:induction false} FirstNilAt(c: Chain, slots: seq<Slots>, k: nat, i: nat)
    requires c.Valid() && Fills(c, slots) && k <= i <= |c.builders|
    requires forall p :: k <= p < i ==> !HasNil(slots[c.builders[p]])
    requires i < |c.builders| ==> HasNil(slots[c.builders[i]])
    ensures FirstNil(c, slots, k) == i
    decreases i - k
  {
    if k < i {
      FirstNilAt(c, slots, k + 1, i);
    }
  }

  /** The loop that wraps one builder's mutator in its hooks, last hook first. */
  method Wrap(i: nat, hooks: Slots) returns (mut: Option<Link>)
    ensures mut == if HasNil(hooks) then None else Some(Link(i, 0))
  {
    var link := Link(i, |hooks|);
    var j := |hooks|;
    while j > 0
      invariant 0 <= j <= |hooks| && link == Link(i, j) && forall k :: j <= k < |hooks| ==> hooks[k].Some?
    {
      j := j - 1;
      if hooks[j].None? {
        return None;
      }
      link := Link(i, j);
    }
    mut := Some(link);
  }

  /** The loop over the builders: defaults, then the mutator of each. */
  method Assemble(c: Chain, slots: seq<Slots>, stamps: seq<Stamp>, w: World)
      returns (w': World, mutators: Option<seq<Link>>)
    requires Fits(c, w) && |stamps| == |c.builders| && Fills(c, slots)
    ensures var p := FirstNil(c, slots, 0);
      if p < |c.builders| then w' == AllDefaults(c, stamps, w, p + 1) && mutators == None
      else
        && w' == AllDefaults(c, stamps, w, p) && mutators.Some? && |mutators.value| == p
        && forall k :: 0 <= k < p ==> mutators.value[k] == Link(k, 0)
  {
    w' := w;
    var made: seq<Link> := [];
    for i := 0 to |c.builders|
      invariant Fits(c, w') && w' == AllDefaults(c, stamps, w, i)
      invariant |made| == i && forall k :: 0 <= k < i ==> made[k] == Link(k, 0)
      invariant forall k :: 0 <= k < i ==> !HasNil(slots[c.builders[k]])
    {
      AllDefaultsNext(c, stamps, w, i);
      w' := SetDefaults(c, stamps, w', i).0;
      var mut := Wrap(i, slots[c.builders[i]]);
      if mut.None? {
        FirstNilAt(c, slots, 0, i);
        return w', None;
      }
      made := made + [mut.value];
    }
    FirstNilAt(c, slots, 0, |c.builders|);
    mutators := Some(made);
  }

  /** The loops of ShareFileCreateBulk.Save, and the call of the first mutator, end as said. */
  method SaveBulk(c: Chain, slots: seq<Slots>, stamps: seq<Stamp>, w: World)
      returns (w': World, outcome: Outcome<Result<seq<Option<Fields>>, Error>>)
    requires Fits(c, w) && |stamps| == |c.builders| && c.mode.Bulk? && Fills(c, slots)
    ensures (w', outcome) == BulkOutcome(c, slots, stamps, w)
  {
    var mutators;
    w', mutators := Assemble(c, slots, stamps, w);
    if mutators.None? {
      return w', Panicked;
    }
    if |mutators.value| == 0 {
      return w', Returned(Ok(w'.nodes));
    }
    var first := mutators.value[0];
    var (w2, reply) := Run(c, first.i, first.j, w', w'.current[c.builders[0]]);
    w', outcome := w2, Returned(if reply.Err? then Err(reply.error) else Ok(w2.nodes));
  }

  lemma {:induction false} FirstNilIs(c: Chain, slots: seq<Slots>, k: nat)
    requires c.Valid() && Fills(c, slots) && k <= |c.builders|
    ensures FirstNil(c, slots, k) < |c.builders| <==> exists i :: k <= i < |c.builders| && HasNil(slots[c.builders[i]])
    decreases |c.builders| - k
  {
    if k < |c.builders| {
      FirstNilIs(c, slots, k + 1);
    }
  }

  /** A bulk panics if and only if one of its builders has a nil hook. It has then, as the single form
      with such a builder has, run no hook, built nothing, stored nothing and marked nothing. So a
      program that never installed the schema's hooks, and with them the default functions, stores
      no share file in either form. */
  lemma {:induction false} NilHookStoresNothing(c: Chain, slots: seq<Slots>, stamps: seq<Stamp>, w: World)
    requires IsStart(c, w) && |stamps| == |c.builders| > 0 && Fills(c, slots)
    ensures c.mode.Bulk? ==>
      var (w', outcome) := BulkOutcome(c, slots, stamps, w);
      && (outcome.Panicked? <==> exists i :: 0 <= i < |c.builders| && HasNil(slots[c.builders[i]]))
      && (outcome.Panicked? ==> IsStart(c, w'))
    ensures c.mode.Single? && HasNil(slots[c.builders[0]]) ==>
      var (w', result) := SingleOutcome(c, slots, stamps[0], w);
      result.Err? && IsStart(c, w')
  {
    if c.mode.Bulk? {
      FirstNilIs(c, slots, 0);
      var p := FirstNil(c, slots, 0);
      if p < |c.builders| {
        DefaultsSettle(c, stamps, w, p + 1);
      }
    }
  }

  // ---------------------------------------------------------------------------------------
  // Instances
  // ---------------------------------------------------------------------------------------

  function AcceptAll(): Rules
  {
    Rules(s => true, s => true, n => true, s => true, n => true, ss => true, BLOCK_BYTES)
  }

  const FULL := Draft(true, Some("id"), Some("user"), Some("share"), Some("name"), Some("path"), Some(1), Some(0),
                      Some("hash"), Some(BLOCK_BYTES), Some(["hash"]), Some(0))

  /** A bulk of one builder with the given hooks in front of the schema's, on a database that stores
      everything. */
  function OneBuilder(hooks: seq<Hook>): Chain
  {
    Chain(Bulk, ShareFileEntity(AcceptAll()), [0], [hooks + [Validate()]], (t, specs) => None)
  }

  function Holding(c: Chain, d: Draft): World
  {
    Start(c, [Mutation(d, false, false)], [0])
  }

  /** Arriving at the core behind the schema's hook, when that is the last one left. */
  lemma {:induction false} PassesValidate(hooks: seq<Hook>, w: World, m: nat)
    requires var c := OneBuilder(hooks); Ready(c, 0, |hooks|, w, m)
    requires var d := w.mutations[m].draft; d.creates ==> Counts(d)
    ensures Arrive(OneBuilder(hooks), |hooks|, w, m) == Ok((Log(w, Enter(0, |hooks|)), m))
  {
    var c, w1 := OneBuilder(hooks), Log(w, Enter(0, |hooks|));
    assert c.Hooks(0)[|hooks|] == Validate();
    assert Edit(w1, m, w.mutations[m].draft) == w1;
    assert Arrive(c, |hooks| + 1, w1, m) == Ok((w1, m));
  }

  /** What the instances start from. */
  lemma {:induction false} Starts(hooks: seq<Hook>, d: Draft)
    ensures var c := OneBuilder(hooks);
      IsStart(c, Holding(c, d)) && c.Hooks(0) == hooks + [Validate()] && Relays(Validate()) && Fits(c, Holding(c, d))
  {
  }

  lemma {:induction false} DefaultsStay(hooks: seq<Hook>, d: Draft, stamp: Stamp)
    requires d.blockSize.Some? && d.createdAt.Some? && (d.id.Some? || stamp.id.None?)
    ensures var c := OneBuilder(hooks);
      Fits(c, Holding(c, d)) &&
      SetDefaults(c, [stamp], Holding(c, d), 0) ==
      (Holding(c, d), if d.id.Some? then None else Some(UninitializedDefault(ID)))
  {
    var c := OneBuilder(hooks);
    var w := Holding(c, d);
    assert c.entity.defaults(stamp, d) == Defaults(AcceptAll(), stamp, d);
    assert Edit(w, 0, d) == w;
  }

  /** The default function for ids taken away after the program has started: the bulk stores a row
      without an id, and the single form refuses. */
  lemma {:induction false} RowWithoutId()
    ensures var c, d, stamp := OneBuilder([]), FULL.(id := None), Stamp(None, None);
      var (wb, bulk) := BulkSave(c, [stamp], Holding(c, d));
      var (ws, single) := SingleSave(AsSingle(c), stamp, Holding(c, d));
      && Stores(wb.trace) == [true] && |wb.specs| == 1 && wb.specs[0].Some? && wb.specs[0].value.id == None
      && ws.trace == [] && single == Err(Invalid(UninitializedDefault(ID)))
  {
    var c, d, stamp := OneBuilder([]), FULL.(id := None), Stamp(None, None);
    var w := Holding(c, d);
    Starts([], d);
    DefaultsStay([], d, stamp);
    PassesValidate([], w, 0);
    BothEnd(c, stamp, w);
  }

  /** A registered hook that calls SetOp and forwards the mutation. */
  function Recast(): Hook
  {
    Hook(1, (t, d: Draft, last: Option<Reply>) =>
      if last.Some? then Answer(d, last.value) else Forward(d.(creates := false), Same))
  }

  const UNCOUNTED := FULL.(blockHashes := Some([]))

  lemma {:induction false} RecastArrives(w: World)
    requires w == Holding(OneBuilder([Recast()]), UNCOUNTED)
    ensures var c := OneBuilder([Recast()]);
      var w1 := Edit(Log(w, Enter(0, 0)), 0, UNCOUNTED.(creates := false));
      && Relays(Recast()) && Fits(c, w) && Ready(c, 0, 0, w, 0)
      && Arrive(c, 0, w, 0) == Ok((Log(w1, Enter(0, 1)), 0))
  {
    var c := OneBuilder([Recast()]);
    var w1 := Edit(Log(w, Enter(0, 0)), 0, UNCOUNTED.(creates := false));
    PassesValidate([Recast()], w1, 0);
    assert c.Hooks(0)[0] == Recast();
  }

  lemma {:induction false} UncountedSpec()
    ensures CreateSpec(UNCOUNTED.(creates := false)).1 == CreateSpec(UNCOUNTED).1
    ensures !SpecCounts(CreateSpec(UNCOUNTED).1)
  {
    var spec := CreateSpec(UNCOUNTED).1;
    assert spec.fields[BLOCK_HASHES] == Strings([]) && spec.fields[SIZE_BYTES] == Number(1);
    assert forall c: Column :: FieldValue(UNCOUNTED.(creates := false), c) == FieldValue(UNCOUNTED, c);
    assert forall c: Column :: EdgeTargets(UNCOUNTED.(creates := false), c) == EdgeTargets(UNCOUNTED, c);
  }

  /** Behind such a hook the schema's looks away, and both forms store a row whose block hashes do
      not count its blocks. */
  lemma {:induction false} UncountedRowIsStored()
    ensures var c, stamp := OneBuilder([Recast()]), Stamp(None, None);
      var wb := BulkSave(c, [stamp], Holding(c, UNCOUNTED)).0;
      var ws := SingleSave(AsSingle(c), stamp, Holding(c, UNCOUNTED)).0;
      && Stores(wb.trace) == Stores(ws.trace) == [true]
      && wb.specs == ws.specs == [Some(CreateSpec(UNCOUNTED).1)] && !SpecCounts(CreateSpec(UNCOUNTED).1)
  {
    var c, stamp := OneBuilder([Recast()]), Stamp(None, None);
    var w := Holding(c, UNCOUNTED);
    Starts([Recast()], UNCOUNTED);
    DefaultsStay([Recast()], UNCOUNTED, stamp);
    RecastArrives(w);
    var wa := Log(Edit(Log(w, Enter(0, 0)), 0, UNCOUNTED.(creates := false)), Enter(0, 1));
    assert c.entity.check(UNCOUNTED.(creates := false)) == None;
    BothStore(c, stamp, w, wa, 0);
    UncountedSpec();
  }
}
