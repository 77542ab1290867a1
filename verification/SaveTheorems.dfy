// What a caller of Save may rely on, and where the bulk form and the single form part.
module SaveTheorems {
  import opened Wrappers
  import opened ShareFiles
  import opened MutatorChain
  import opened ChainTheorems

  /** A world in which nothing has happened yet. */
  predicate IsStart(c: Chain, w: World)
  {
    && Fits(c, w)
    && w.trace == []
    && (forall i :: 0 <= i < |w.nodes| ==> w.nodes[i].None? && w.specs[i].None?)
    && (forall m :: 0 <= m < |w.mutations| ==> !w.mutations[m].done && !w.mutations[m].foreign)
  }

  /** For any hooks: whenever the batch is stored, every place was checked and built before, in
      the order of the list, and the batch holds exactly what was built last. */
  lemma {:induction false} StoresOnlyWhatWasBuilt(c: Chain, stamps: seq<Stamp>, w: World)
    requires IsStart(c, w) && c.mode.Bulk? && |stamps| == |c.builders|
    ensures Sound(c, BulkSave(c, stamps, w).0.trace)
  {
    var w1 := AllDefaults(c, stamps, w, |c.builders|);
    if |c.builders| > 0 {
      RunIsSound(c, 0, 0, w1, w1.current[c.builders[0]]);
    }
  }

  /** The same of the single form. */
  lemma {:induction false} SingleStoresOnlyWhatWasBuilt(c: Chain, stamp: Stamp, w: World)
    requires IsStart(c, w) && c.mode.Single?
    ensures Sound(c, SingleSave(c, stamp, w).0.trace)
  {
    var w1 := SetDefaults(c, [stamp], w, 0).0;
    RunIsSound(c, 0, 0, w1, w1.current[c.builders[0]]);
  }

  /** For hooks that relay: the batch is stored at most once, and only if nothing stopped the
      way down; the hooks were entered in list order, outermost first, and left in exactly the
      reverse order; the places marked done are a suffix of the list, empty unless the batch
      was stored; and Save reports success only when the batch is stored and all are done. */
  lemma {:induction false} SaveIsAtomic(c: Chain, stamps: seq<Stamp>, w: World) returns (k: nat, depth: nat)
    requires IsStart(c, w) && c.mode.Bulk? && |stamps| == |c.builders| > 0 && AllRelay(c)
    ensures var (w', result) := BulkSave(c, stamps, w);
      && |Stores(w'.trace)| + Halts(w'.trace) == 1
      && k <= |c.builders| && Marks(w'.trace) == Countdown(k, |c.builders|)
      && (Marks(w'.trace) != [] ==> Stores(w'.trace) == [true])
      && depth <= |Places(c, 0, 0)|
      && Turns(w'.trace) == Ins(Places(c, 0, 0)[..depth]) + Outs(Places(c, 0, 0)[..depth])
      && (Stores(w'.trace) != [] ==> depth == |Places(c, 0, 0)|)
      && (result.Ok? ==> k == 0 && Stores(w'.trace) == [true] && result.value == w'.nodes)
  {
    var w1 := AllDefaults(c, stamps, w, |c.builders|);
    var stores;
    k, depth, stores := RunUnwinds(c, 0, 0, w1, w1.current[c.builders[0]]);
  }

  /** The same, event by event. */
  lemma {:induction false} SoundAt(c: Chain, t: seq<Event>, x: nat)
    requires Sound(c, t) && x < |t|
    ensures t[x].Built? ==> c.entity.check(t[x].checked).None?
    ensures t[x].Wrote? ==> AllBuilt(c, t[..x], |c.builders|) && Mirrors(c, t[..x], t[x].specs)
  {
    var before := t[..|t| - 1];
    if x < |t| - 1 {
      SoundAt(c, before, x);
      assert before[..x] == t[..x];
    }
  }

  // ---------------------------------------------------------------------------------------
  // Hooks that pass on the mutation they were given
  // ---------------------------------------------------------------------------------------

  ghost predicate PassesOwn(h: Hook)
  {
    forall t, d, last :: h.step(t, d, last).Forward? ==> h.step(t, d, last).arg == Same
  }

  ghost predicate AllPassOwn(c: Chain)
  {
    forall b, j :: 0 <= b < |c.stacks| && 0 <= j < |c.stacks[b]| ==> PassesOwn(c.stacks[b][j])
  }

  /** What is built is what was checked. */
  ghost predicate Honest(t: seq<Event>)
  {
    forall x :: 0 <= x < |t| && t[x].Built? ==> t[x].checked == t[x].used
  }

  /** A mutation carries the done flag exactly when a place that holds it was marked. */
  ghost predicate FlagsFollow(c: Chain, w: World)
    requires Fits(c, w)
  {
    forall m :: 0 <= m < |w.mutations| ==>
      (w.mutations[m].done <==>
       exists i :: 0 <= i < |c.builders| && i in Marks(w.trace) && w.current[c.builders[i]] == m)
  }

  ghost predicate Settled(c: Chain, w: World)
    requires Fits(c, w)
  {
    Honest(w.trace) && FlagsFollow(c, w)
  }

  ghost predicate KeepsOwn(c: Chain, w: World, w': World)
    requires Fits(c, w)
  {
    Fits(c, w') && w'.current == w.current && |w'.mutations| == |w.mutations| && Settled(c, w')
  }

  lemma {:induction false} LogSettles(c: Chain, w: World, e: Event)
    requires Fits(c, w) && Settled(c, w) && !e.Marked? && (e.Built? ==> e.checked == e.used)
    ensures KeepsOwn(c, w, Log(w, e))
  {
    LogReads(w.trace, e);
  }

  lemma {:induction false} EditSettles(c: Chain, w: World, m: nat, d: Draft)
    requires Fits(c, w) && Settled(c, w) && m < |w.mutations|
    ensures KeepsOwn(c, w, Edit(w, m, d))
  {
    var w' := Edit(w, m, d);
    forall r | 0 <= r < |w'.mutations|
      ensures w'.mutations[r].done <==>
              exists k :: 0 <= k < |c.builders| && k in Marks(w'.trace) && w'.current[c.builders[k]] == r
    {
      assert w'.mutations[r].done == w.mutations[r].done;
    }
  }

  lemma {:induction false} MarkSettles(c: Chain, w: World, i: nat)
    requires Fits(c, w) && Settled(c, w) && i < |c.builders| && w.nodes[i].Some?
    ensures KeepsOwn(c, w, MarkDone(w, i, w.current[c.builders[i]]).0)
  {
    LogReads(w.trace, Marked(i));
    var m, w' := w.current[c.builders[i]], MarkDone(w, i, w.current[c.builders[i]]).0;
    assert Marks(w'.trace) == Marks(w.trace) + [i];
    forall r | 0 <= r < |w'.mutations|
      ensures w'.mutations[r].done <==>
              exists k :: 0 <= k < |c.builders| && k in Marks(w'.trace) && w'.current[c.builders[k]] == r
    {
      if r == m {
        assert i in Marks(w'.trace) && w'.current[c.builders[i]] == r;
      } else {
        assert w'.mutations[r].done == w.mutations[r].done;
      }
    }
  }

  /** For any hooks that pass on the mutation they were given (retries and swallowed errors
      included): what is built is what was checked, and the done flags are those of the marks. */
  lemma {:induction false} RunKeepsOwn(c: Chain, i: nat, j: nat, w: World)
    requires Fits(c, w) && i < |c.builders| && j <= |c.Hooks(i)| && c.mode.Bulk? && AllPassOwn(c) && Settled(c, w)
    ensures KeepsOwn(c, w, Run(c, i, j, w, w.current[c.builders[i]]).0)
    decreases |c.builders| - i, |c.Hooks(i)| - j, 1, 0
  {
    if j == |c.Hooks(i)| {
      CoreKeepsOwn(c, i, w);
    } else {
      var m, w1 := w.current[c.builders[i]], Log(w, Enter(i, j));
      LogSettles(c, w, Enter(i, j));
      ConsultKeepsOwn(c, i, j, w1, None, c.Hooks(i)[j].tries);
      LogSettles(c, Consult(c, i, j, w1, m, None, c.Hooks(i)[j].tries).0, Leave(i, j));
    }
  }

  lemma {:induction false} ConsultKeepsOwn(c: Chain, i: nat, j: nat, w: World, last: Option<Reply>, left: nat)
    requires Fits(c, w) && i < |c.builders| && j < |c.Hooks(i)| && c.mode.Bulk? && AllPassOwn(c) && Settled(c, w)
    ensures KeepsOwn(c, w, Consult(c, i, j, w, w.current[c.builders[i]], last, left).0)
    decreases |c.builders| - i, |c.Hooks(i)| - j, 0, left
  {
    var m := w.current[c.builders[i]];
    assert PassesOwn(c.Hooks(i)[j]);
    match c.Hooks(i)[j].step(w.trace, w.mutations[m].draft, last)
    case Answer(d, reply) =>
      var w1 := if last.None? then Log(w, Refused(i, j)) else w;
      if last.None? {
        LogSettles(c, w, Refused(i, j));
      }
      EditSettles(c, w1, m, d);
    case Forward(d, arg) =>
      EditSettles(c, w, m, d);
      if left > 0 {
        var w1 := Edit(w, m, d);
        RunKeepsOwn(c, i, j + 1, w1);
        var (w2, reply) := Run(c, i, j + 1, w1, m);
        ConsultKeepsOwn(c, i, j, w2, Some(reply), left - 1);
      }
  }

  lemma {:induction false} CoreKeepsOwn(c: Chain, i: nat, w: World)
    requires Fits(c, w) && i < |c.builders| && c.mode.Bulk? && AllPassOwn(c) && Settled(c, w)
    ensures KeepsOwn(c, w, BulkCore(c, i, w, w.current[c.builders[i]]).0)
    decreases |c.builders| - i, 0, 0, 0
  {
    var m := w.current[c.builders[i]];
    var draft := w.mutations[m].draft;
    if w.mutations[m].foreign || c.entity.check(draft).Some? {
      LogSettles(c, w, Rejected(i));
    } else {
      assert w.(current := w.current[c.builders[i] := m]) == w;
      var w1 := Build(c, w, i, draft, m);
      LogSettles(c, w, Built(i, draft, draft));
      var (w2, reply) := Descend(c, i, w1);
      if i < |c.builders| - 1 {
        RunKeepsOwn(c, i + 1, 0, w1);
      } else {
        LogSettles(c, w1, Wrote(w1.specs, reply.Ok?));
      }
      if reply.Ok? {
        MarkSettles(c, w2, i);
      }
    }
  }

  lemma {:induction false} DefaultsSettle(c: Chain, stamps: seq<Stamp>, w: World, k: nat)
    requires IsStart(c, w) && |stamps| == |c.builders| && k <= |c.builders|
    ensures IsStart(c, AllDefaults(c, stamps, w, k)) && AllDefaults(c, stamps, w, k).current == w.current
  {
    if k > 0 {
      DefaultsSettle(c, stamps, w, k - 1);
    }
  }

  /** If every hook passes on the mutation it was given, every specification that reaches the
      database was made from a draft that passes the checks. */
  lemma {:induction false} StoresOnlyCheckedDrafts(c: Chain, stamps: seq<Stamp>, w: World, x: nat, i: nat)
      returns (d: Draft)
    requires IsStart(c, w) && c.mode.Bulk? && |stamps| == |c.builders| && AllPassOwn(c)
    requires var t := BulkSave(c, stamps, w).0.trace; x < |t| && t[x].Wrote? && i < |c.builders|
    ensures var t := BulkSave(c, stamps, w).0.trace;
      c.entity.check(d).None? && |t[x].specs| == |c.builders| && t[x].specs[i] == Some(c.entity.createSpec(d).1)
  {
    var t, w1 := BulkSave(c, stamps, w).0.trace, AllDefaults(c, stamps, w, |c.builders|);
    DefaultsSettle(c, stamps, w, |c.builders|);
    RunKeepsOwn(c, 0, 0, w1);
    StoresOnlyWhatWasBuilt(c, stamps, w);
    SoundAt(c, t, x);
    var b := LastBuilt(t[..x], i);
    SoundAt(c, t, b);
    d := t[b].used;
  }

  predicate Distinct(c: Chain, w: World)
    requires Fits(c, w)
  {
    forall i, k :: 0 <= i < k < |c.builders| ==> w.current[c.builders[i]] != w.current[c.builders[k]]
  }

  /** The mutation at place i that the first k defaults have not come to yet. */
  lemma {:induction false} DefaultsAt(c: Chain, stamps: seq<Stamp>, w: World, k: nat)
    requires Fits(c, w) && |stamps| == |c.builders| && k <= |c.builders| && Distinct(c, w)
    ensures forall i :: 0 <= i < |c.builders| ==>
      var m := w.current[c.builders[i]];
      AllDefaults(c, stamps, w, k).mutations[m].draft ==
        if i < k then c.entity.defaults(stamps[i], w.mutations[m].draft).0 else w.mutations[m].draft
    ensures forall m :: 0 <= m < |w.mutations| && Unheld(c, w, m) ==>
      AllDefaults(c, stamps, w, k).mutations[m] == w.mutations[m]
  {
    if k > 0 {
      DefaultsAt(c, stamps, w, k - 1);
    }
  }

  /** No builder holds the mutation. */
  predicate Unheld(c: Chain, w: World, m: nat)
    requires Fits(c, w)
  {
    forall i :: 0 <= i < |c.builders| ==> w.current[c.builders[i]] != m
  }

  // ---------------------------------------------------------------------------------------
  // Done flags
  // ---------------------------------------------------------------------------------------

  predicate IsDone(c: Chain, w: World, p: nat)
    requires Fits(c, w) && p < |c.builders|
  {
    w.mutations[w.current[c.builders[p]]].done
  }

  /** Mutation m is about to reach place i: no builder's mutation is done, and m is held by the
      builder at place i or by none. */
  ghost predicate Undone(c: Chain, w: World, i: nat, m: nat)
    requires Fits(c, w) && m < |w.mutations|
  {
    && Distinct(c, w) && !w.mutations[m].done
    && forall p :: 0 <= p < |c.builders| ==> !IsDone(c, w, p) && (p != i ==> w.current[c.builders[p]] != m)
  }

  /** The mutation of the builder at place p has the id of the entity made for it. */
  predicate KnowsId(c: Chain, w: World, p: nat)
    requires Fits(c, w) && p < |c.builders|
  {
    w.nodes[p].Some? && w.mutations[w.current[c.builders[p]]].draft.id == Some(w.nodes[p].value.id)
  }

  /** From place k on the builders are done, and if `ids` is asked for know the ids of their entities;
      those before place i hold what they held. */
  ghost predicate DoneFrom(ids: bool, c: Chain, i: nat, w: World, w': World, k: int)
    requires Fits(c, w)
  {
    && Fits(c, w') && Distinct(c, w')
    && (forall p :: 0 <= p < |c.builders| ==> (IsDone(c, w', p) <==> k <= p))
    && (ids ==> forall p :: 0 <= p < |c.builders| && k <= p ==> KnowsId(c, w', p))
    && (forall p :: 0 <= p < i && p < |c.builders| ==> w'.current[c.builders[p]] == w.current[c.builders[p]])
  }

  /** The place down to which a stretch of a trace marks, if it counts down from the last one. */
  function MarkedDownTo(c: Chain, t: seq<Event>, t': seq<Event>): int
  {
    |c.builders| - (|Marks(t')| - |Marks(t)|)
  }

  lemma {:induction false} CountdownSize(k: nat, n: nat)
    requires k <= n
    ensures |Countdown(k, n)| == n - k
    decreases n - k
  {
    if k < n {
      CountdownSize(k + 1, n);
    }
  }

  /** Between the worlds unmarked events happen, and only drafts change; with `ids` only those of
      mutations that are not done. */
  ghost predicate SameFlags(ids: bool, c: Chain, w: World, w': World)
    requires Fits(c, w)
  {
    && Fits(c, w') && w'.current == w.current && Marks(w'.trace) == Marks(w.trace) && |w.mutations| <= |w'.mutations|
    && w'.nodes == w.nodes
    && (forall r :: 0 <= r < |w.mutations| ==> w'.mutations[r].done == w.mutations[r].done)
    && (ids ==> forall r :: 0 <= r < |w.mutations| && w.mutations[r].done ==>
                  w'.mutations[r].draft == w.mutations[r].draft)
  }

  lemma {:induction false} UndoneStays(ids: bool, c: Chain, i: nat, w: World, m: nat, w': World)
    requires Fits(c, w) && m < |w.mutations| && Undone(c, w, i, m) && SameFlags(ids, c, w, w')
    ensures DoneFrom(ids, c, i, w, w', MarkedDownTo(c, w.trace, w'.trace))
  {
    assert forall p :: 0 <= p < |c.builders| ==> !IsDone(c, w, p) && !IsDone(c, w', p);
  }

  /** What happens around a stretch. */
  lemma {:induction false} DoneAround(ids: bool, c: Chain, i: nat, w: World, w1: World, w2: World, w': World)
    requires Fits(c, w) && SameFlags(ids, c, w, w1) && DoneFrom(ids, c, i, w1, w2, MarkedDownTo(c, w1.trace, w2.trace))
    requires SameFlags(ids, c, w2, w')
    ensures DoneFrom(ids, c, i, w, w', MarkedDownTo(c, w.trace, w'.trace))
  {
    forall p | 0 <= p < |c.builders|
      ensures IsDone(c, w2, p) <==> IsDone(c, w', p)
      ensures ids && IsDone(c, w', p) ==> KnowsId(c, w', p)
    {
      assert w'.current[c.builders[p]] == w2.current[c.builders[p]];
      assert ids && IsDone(c, w2, p) ==> KnowsId(c, w2, p);
    }
  }

  lemma {:induction false} RunMarksDown(ids: bool, c: Chain, i: nat, j: nat, w: World, m: nat)
    requires Ready(c, i, j, w, m) && c.mode.Bulk? && AllRelay(c) && (ids ==> AllHandOn(c)) && Undone(c, w, i, m)
    ensures var w' := Run(c, i, j, w, m).0; DoneFrom(ids, c, i, w, w', MarkedDownTo(c, w.trace, w'.trace))
    decreases |c.builders| - i, |c.Hooks(i)| - j, 2
  {
    if j == |c.Hooks(i)| {
      CoreMarksDown(ids, c, i, w, m);
    } else {
      var step := c.Hooks(i)[j].step(w.trace + [Enter(i, j)], w.mutations[m].draft, None);
      if step.Answer? {
        RefusalMarksDown(ids, c, i, j, w, m);
      } else {
        var (w2, m2) := Pass(Edit(Log(w, Enter(i, j)), m, step.edit), m, step.arg);
        ForwardIsUndone(ids, c, i, j, w, m, step.edit, step.arg);
        RunMarksDown(ids, c, i, j + 1, w2, m2);
        LinkMarksDown(ids, c, i, j, w, m);
      }
    }
  }

  lemma {:induction false} RefusalMarksDown(ids: bool, c: Chain, i: nat, j: nat, w: World, m: nat)
    requires Ready(c, i, j, w, m) && j < |c.Hooks(i)| && Relays(c.Hooks(i)[j]) && Undone(c, w, i, m)
    requires c.Hooks(i)[j].step(w.trace + [Enter(i, j)], w.mutations[m].draft, None).Answer?
    ensures var w' := Run(c, i, j, w, m).0; DoneFrom(ids, c, i, w, w', MarkedDownTo(c, w.trace, w'.trace))
  {
    var w1 := Log(w, Enter(i, j));
    ConsultOnce(c, i, j, w1, m);
    LogReads(w.trace, Enter(i, j));
    LogReads(w1.trace, Refused(i, j));
    LogReads(Consult(c, i, j, w1, m, None, c.Hooks(i)[j].tries).0.trace, Leave(i, j));
    UndoneStays(ids, c, i, w, m, Run(c, i, j, w, m).0);
  }

  lemma {:induction false} ForwardIsUndone(ids: bool, c: Chain, i: nat, j: nat, w: World, m: nat, d: Draft,
                                           arg: Argument)
    requires Fits(c, w) && m < |w.mutations| && Undone(c, w, i, m)
    ensures var (w2, m2) := Pass(Edit(Log(w, Enter(i, j)), m, d), m, arg);
      SameFlags(ids, c, w, w2) && m2 < |w2.mutations| && Undone(c, w2, i, m2)
  {
    LogReads(w.trace, Enter(i, j));
    var w2 := Pass(Edit(Log(w, Enter(i, j)), m, d), m, arg).0;
    assert forall p :: 0 <= p < |c.builders| ==> !IsDone(c, w, p) && !IsDone(c, w2, p);
  }

  lemma {:induction false} LinkMarksDown(ids: bool, c: Chain, i: nat, j: nat, w: World, m: nat)
    requires Ready(c, i, j, w, m) && j < |c.Hooks(i)| && Relays(c.Hooks(i)[j]) && Undone(c, w, i, m)
    requires ids ==> HandsOn(c.Hooks(i)[j])
    requires c.Hooks(i)[j].step(w.trace + [Enter(i, j)], w.mutations[m].draft, None).Forward?
    requires var step := c.Hooks(i)[j].step(w.trace + [Enter(i, j)], w.mutations[m].draft, None);
      var (w2, m2) := Pass(Edit(Log(w, Enter(i, j)), m, step.edit), m, step.arg);
      var w3 := Run(c, i, j + 1, w2, m2).0;
      DoneFrom(ids, c, i, w2, w3, MarkedDownTo(c, w2.trace, w3.trace))
    ensures var w' := Run(c, i, j, w, m).0; DoneFrom(ids, c, i, w, w', MarkedDownTo(c, w.trace, w'.trace))
  {
    var step := c.Hooks(i)[j].step(w.trace + [Enter(i, j)], w.mutations[m].draft, None);
    var w1 := Log(w, Enter(i, j));
    var (w2, m2) := Pass(Edit(w1, m, step.edit), m, step.arg);
    var w3, w4 := Run(c, i, j + 1, w2, m2).0, Consult(c, i, j, w1, m, None, c.Hooks(i)[j].tries).0;
    ConsultOnce(c, i, j, w1, m);
    ForwardIsUndone(ids, c, i, j, w, m, step.edit, step.arg);
    LogReads(w4.trace, Leave(i, j));
    DoneAround(ids, c, i, w, w2, w3, Run(c, i, j, w, m).0);
  }

  lemma {:induction false} CoreMarksDown(ids: bool, c: Chain, i: nat, w: World, m: nat)
    requires Fits(c, w) && i < |c.builders| && m < |w.mutations|
    requires c.mode.Bulk? && AllRelay(c) && (ids ==> AllHandOn(c)) && Undone(c, w, i, m)
    ensures var w' := BulkCore(c, i, w, m).0; DoneFrom(ids, c, i, w, w', MarkedDownTo(c, w.trace, w'.trace))
    decreases |c.builders| - i, 0, 1
  {
    var checked := w.mutations[w.current[c.builders[i]]].draft;
    if w.mutations[m].foreign || c.entity.check(checked).Some? {
      LogReads(w.trace, Rejected(i));
      UndoneStays(ids, c, i, w, m, BulkCore(c, i, w, m).0);
    } else {
      var w1 := Build(c, w.(current := w.current[c.builders[i] := m]), i, checked, m);
      BuildIsUndone(c, i, w, m, checked);
      DescentMarksDown(ids, c, i, w1, m);
      var (w2, reply) := Descend(c, i, w1);
      if reply.Ok? {
        MarkMarksDown(ids, c, i, w, w1, w2, m);
      }
    }
  }

  lemma {:induction false} BuildIsUndone(c: Chain, i: nat, w: World, m: nat, checked: Draft)
    requires Fits(c, w) && i < |c.builders| && m < |w.mutations| && Undone(c, w, i, m)
    ensures var w1 := Build(c, w.(current := w.current[c.builders[i] := m]), i, checked, m);
      && Fits(c, w1) && Marks(w1.trace) == Marks(w.trace) && w1.current[c.builders[i]] == m && Undone(c, w1, i, m)
      && forall p :: 0 <= p < |c.builders| && p != i ==> w1.current[c.builders[p]] == w.current[c.builders[p]]
  {
    LogReads(w.trace, Built(i, checked, w.mutations[m].draft));
    var w1 := Build(c, w.(current := w.current[c.builders[i] := m]), i, checked, m);
    forall p | 0 <= p < |c.builders| && p != i ensures w1.current[c.builders[p]] == w.current[c.builders[p]] {
      assert c.builders[p] != c.builders[i];
    }
    assert forall p :: 0 <= p < |c.builders| ==> !IsDone(c, w, p) && !IsDone(c, w1, p);
  }

  lemma {:induction false} MarkMarksDown(ids: bool, c: Chain, i: nat, w: World, w1: World, w2: World, m: nat)
    requires Fits(c, w) && Fits(c, w1) && i < |c.builders| && Marks(w1.trace) == Marks(w.trace)
    requires w1.current[c.builders[i]] == m && MarkedDownTo(c, w1.trace, w2.trace) == i + 1
    requires forall p :: 0 <= p < i ==> w1.current[c.builders[p]] == w.current[c.builders[p]]
    requires DoneFrom(ids, c, i + 1, w1, w2, i + 1) && w2.nodes[i].Some?
    ensures var w' := MarkDone(w2, i, m).0; DoneFrom(ids, c, i, w, w', MarkedDownTo(c, w.trace, w'.trace))
  {
    LogReads(w2.trace, Marked(i));
    var w' := MarkDone(w2, i, m).0;
    forall p | 0 <= p < |c.builders|
      ensures IsDone(c, w', p) <==> i <= p
      ensures ids && i <= p ==> KnowsId(c, w', p)
    {
      assert IsDone(c, w2, p) <==> i + 1 <= p;
      assert ids && i + 1 <= p ==> KnowsId(c, w2, p);
      if p != i {
        assert w2.current[c.builders[p]] != m;
      }
    }
  }

  /** Below place i, which holds m. */
  lemma {:induction false} DescentMarksDown(ids: bool, c: Chain, i: nat, w: World, m: nat)
    requires Fits(c, w) && i < |c.builders| && c.mode.Bulk? && AllRelay(c) && (ids ==> AllHandOn(c))
    requires m == w.current[c.builders[i]]
    requires Undone(c, w, i, m)
    ensures var (w', reply) := Descend(c, i, w);
      && DoneFrom(ids, c, i + 1, w, w', MarkedDownTo(c, w.trace, w'.trace))
      && (reply.Ok? ==> MarkedDownTo(c, w.trace, w'.trace) == i + 1)
    decreases |c.builders| - i, 0, 0
  {
    var k, depth, stores := DescentUnwinds(c, i, w);
    CountdownSize(k, |c.builders|);
    if i < |c.builders| - 1 {
      RunMarksDown(ids, c, i + 1, 0, w, w.current[c.builders[i + 1]]);
    } else {
      LogReads(w.trace, Wrote(w.specs, StoreAll(c, w).1.Ok?));
    }
  }

  /** If every hook relays, whatever it forwards, and no two places share a mutation, the builders
      whose mutation is done form a suffix of the list: all of it when Save succeeds, none of it
      unless the batch was stored. */
  lemma {:induction false} DoneBuildersAreASuffix(c: Chain, stamps: seq<Stamp>, w: World) returns (k: nat)
    requires IsStart(c, w) && c.mode.Bulk? && |stamps| == |c.builders| > 0
    requires AllRelay(c) && Distinct(c, w)
    ensures var (w', result) := BulkSave(c, stamps, w);
      && Fits(c, w') && k <= |c.builders|
      && (forall i :: 0 <= i < |c.builders| ==> (IsDone(c, w', i) <==> k <= i))
      && (k < |c.builders| ==> Stores(w'.trace) == [true])
      && (result.Ok? ==> k == 0)
  {
    var w1, w' := AllDefaults(c, stamps, w, |c.builders|), BulkSave(c, stamps, w).0;
    var depth;
    k, depth := SaveIsAtomic(c, stamps, w);
    CountdownSize(k, |c.builders|);
    DefaultsSettle(c, stamps, w, |c.builders|);
    RunMarksDown(false, c, 0, 0, w1, w1.current[c.builders[0]]);
  }

  /** If every hook hands the reply on, the mutation of every builder that is done has the id of the
      entity made for it, at every exit. */
  lemma {:induction false} DoneBuildersKnowTheirIds(c: Chain, stamps: seq<Stamp>, w: World)
    requires IsStart(c, w) && c.mode.Bulk? && |stamps| == |c.builders| > 0
    requires AllHandOn(c) && Distinct(c, w)
    ensures var w' := BulkSave(c, stamps, w).0;
      Fits(c, w') && forall i :: 0 <= i < |c.builders| && IsDone(c, w', i) ==> KnowsId(c, w', i)
  {
    var w1 := AllDefaults(c, stamps, w, |c.builders|);
    DefaultsSettle(c, stamps, w, |c.builders|);
    RunMarksDown(true, c, 0, 0, w1, w1.current[c.builders[0]]);
  }

  // ---------------------------------------------------------------------------------------
  // What Save returns
  // ---------------------------------------------------------------------------------------

  /** For any hooks: a bulk that succeeds returns, place by place, the entity of the draft last built
      there. */
  lemma {:induction false} ReturnsWhatWasBuilt(c: Chain, stamps: seq<Stamp>, w: World)
    requires IsStart(c, w) && c.mode.Bulk? && |stamps| == |c.builders|
    ensures var (w', result) := BulkSave(c, stamps, w); result.Ok? ==> Entities(c, w'.trace, result.value)
  {
    var w1 := AllDefaults(c, stamps, w, |c.builders|);
    if |c.builders| > 0 {
      RunIsSound(c, 0, 0, w1, w1.current[c.builders[0]]);
    }
  }

  /** An attempt to store these specifications, at place x of a trace. */
  predicate WroteAt(t: seq<Event>, x: nat, specs: seq<Option<Spec>>)
  {
    x < |t| && t[x].Wrote? && t[x].specs == specs
  }

  /** In a run of relaying hooks nothing changes a specification after the attempt to store. */
  lemma {:induction false} RunStoresFinal(c: Chain, i: nat, j: nat, w: World, m: nat) returns (x: nat)
    requires Ready(c, i, j, w, m) && c.mode.Bulk? && AllRelay(c)
    ensures var w' := Run(c, i, j, w, m).0; Stores(w'.trace) == Stores(w.trace) || WroteAt(w'.trace, x, w'.specs)
    decreases |c.builders| - i, |c.Hooks(i)| - j, 2
  {
    if j == |c.Hooks(i)| {
      x := CoreStoresFinal(c, i, w, m);
    } else {
      var w1 := Log(w, Enter(i, j));
      var step := c.Hooks(i)[j].step(w1.trace, w.mutations[m].draft, None);
      ConsultOnce(c, i, j, w1, m);
      var w3 := Consult(c, i, j, w1, m, None, c.Hooks(i)[j].tries).0;
      LogStores(w.trace, Enter(i, j));
      LogStores(w3.trace, Leave(i, j));
      if step.Answer? {
        LogStores(w1.trace, Refused(i, j));
        x := 0;
      } else {
        var (w2, m2) := Pass(Edit(w1, m, step.edit), m, step.arg);
        x := RunStoresFinal(c, i, j + 1, w2, m2);
      }
    }
  }

  lemma {:induction false} CoreStoresFinal(c: Chain, i: nat, w: World, m: nat) returns (x: nat)
    requires Fits(c, w) && i < |c.builders| && m < |w.mutations| && c.mode.Bulk? && AllRelay(c)
    ensures var w' := BulkCore(c, i, w, m).0; Stores(w'.trace) == Stores(w.trace) || WroteAt(w'.trace, x, w'.specs)
    decreases |c.builders| - i, 0, 1
  {
    var checked := w.mutations[w.current[c.builders[i]]].draft;
    x := 0;
    if w.mutations[m].foreign || c.entity.check(checked).Some? {
      LogStores(w.trace, Rejected(i));
    } else {
      var w1 := Build(c, w.(current := w.current[c.builders[i] := m]), i, checked, m);
      LogStores(w.trace, Built(i, checked, w.mutations[m].draft));
      var (w2, reply) := Descend(c, i, w1);
      if i < |c.builders| - 1 {
        x := RunStoresFinal(c, i + 1, 0, w1, w1.current[c.builders[i + 1]]);
      } else {
        x := |w1.trace|;
      }
      LogStores(w2.trace, Marked(i));
    }
  }

  /** One draft gives both. */
  ghost predicate OfOneDraft(c: Chain, node: Option<Fields>, spec: Option<Spec>)
  {
    exists d: Draft :: Gives(c, d, node, spec)
  }

  ghost predicate Gives(c: Chain, d: Draft, node: Option<Fields>, spec: Option<Spec>)
  {
    node == Some(c.entity.createSpec(d).0) && spec == Some(c.entity.createSpec(d).1)
  }

  /** What was stored by an event of a sound trace, and what is built in the end without having been
      stored anew. */
  lemma {:induction false} StoredAndBuilt(c: Chain, t: seq<Event>, x: nat, nodes: seq<Option<Fields>>)
    requires Sound(c, t) && Mirrors(c, t, if x < |t| && t[x].Wrote? then t[x].specs else []) && Entities(c, t, nodes)
    requires x < |t| && t[x].Wrote?
    ensures forall i :: 0 <= i < |c.builders| ==> OfOneDraft(c, nodes[i], t[x].specs[i])
  {
    SoundAt(c, t, x);
    forall i | 0 <= i < |c.builders| ensures OfOneDraft(c, nodes[i], t[x].specs[i]) {
      BuiltBefore(t, x, i);
      assert Gives(c, t[LastBuilt(t, i)].used, nodes[i], t[x].specs[i]);
    }
  }

  /** With relaying hooks a bulk that succeeds returns the entities of what it has stored: for every
      place there is a draft whose specification was stored there and whose entity is returned. */
  lemma {:induction false} ReturnsWhatWasStored(c: Chain, stamps: seq<Stamp>, w: World) returns (x: nat)
    requires IsStart(c, w) && c.mode.Bulk? && |stamps| == |c.builders| > 0 && AllRelay(c)
    ensures var (w', result) := BulkSave(c, stamps, w);
      result.Ok? ==>
        && x < |w'.trace| && w'.trace[x].Wrote? && |result.value| == |w'.trace[x].specs| == |c.builders|
        && forall i :: 0 <= i < |c.builders| ==> OfOneDraft(c, result.value[i], w'.trace[x].specs[i])
  {
    var w1 := AllDefaults(c, stamps, w, |c.builders|);
    var k, depth := SaveIsAtomic(c, stamps, w);
    x := RunStoresFinal(c, 0, 0, w1, w1.current[c.builders[0]]);
    RunIsSound(c, 0, 0, w1, w1.current[c.builders[0]]);
    var (w', result) := BulkSave(c, stamps, w);
    if result.Ok? {
      StoredAndBuilt(c, w'.trace, x, result.value);
    }
  }

  /** What was built before some place of a trace was built. */
  lemma {:induction false} BuiltBefore(t: seq<Event>, x: nat, i: nat)
    requires x <= |t| && LastBuilt(t[..x], i) >= 0
    ensures LastBuilt(t, i) >= 0
  {
    var p := LastBuilt(t[..x], i);
    assert t[..x][p] == t[p];
    LastBuiltAfter(t, i, p, |t|);
  }

  lemma {:induction false} LastBuiltAfter(t: seq<Event>, i: nat, p: nat, n: nat)
    requires p < n <= |t| && t[p].Built? && t[p].i == i
    ensures LastBuiltIn(t, i, n) >= p
  {
    if p < n - 1 {
      LastBuiltAfter(t, i, p, n - 1);
    }
  }
}
