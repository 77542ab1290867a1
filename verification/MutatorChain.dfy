// The mutator chains of Save: each builder's core operation wrapped in its stack of hooks, the
// core of builder i calling the chain of builder i + 1 (bulk), or storing one row (single).
//
// Go builds the chain out of closures; here a link is named by its place, (i, j) being hook j
// of builder i and (i, |hooks of i|) its core. What the closures share is one World value, in
// which mutation objects have numbers, so that two builders may hold the same one.
module MutatorChain {
  import opened Wrappers
  import opened ShareFiles

  datatype Error =
    | HookError(code: nat)
    | UninitializedHook
    | Invalid(failure: Failure)
    | UnexpectedMutation
    | UnexpectedNode
    | Constraint
    | Storage

  /** What a Mutator returns; Foreign is a value of some other type. */
  datatype Value = Node(fields: Fields) | Foreign

  type Reply = Result<Value, Error>

  datatype Event =
    | Enter(i: nat, j: nat)
    | Leave(i: nat, j: nat)
    | Refused(i: nat, j: nat)   // a hook answered without having forwarded
    | Rejected(i: nat)          // the core found a mutation of another type, or an invalid one
    | Built(i: nat, checked: Draft, used: Draft)
    | Wrote(specs: seq<Option<Spec>>, ok: bool)
    | Marked(i: nat)

  /** What a hook passes to the next mutator: the mutation it was given, or a new object. */
  datatype Argument = Same | Another(draft: Draft, foreign: bool)

  datatype Step = Answer(edit: Draft, reply: Reply) | Forward(edit: Draft, arg: Argument)

  /** A terminating hook that forwards its own mutation or a new one, but never one that another
      builder holds; otherwise any. Before each call of the next mutator and after the last one, step
      sees everything that has happened, the mutation's present content and the latest reply;
      it edits the mutation and forwards or answers. The hook forwards at most `tries` times. */
  datatype Hook = Hook(tries: nat, step: (seq<Event>, Draft, Option<Reply>) -> Step)

  datatype Mode = Bulk | Single

  /** The generated parts of one entity. */
  datatype Entity = Entity(
    defaults: (Stamp, Draft) -> (Draft, Option<Failure>),
    check: Draft -> Option<Failure>,
    createSpec: Draft -> (Fields, Spec))

  function ShareFileEntity(rules: Rules): Entity
  {
    Entity((stamp, d) => Defaults(rules, stamp, d), d => Check(rules, d), d => CreateSpec(d))
  }

  /** What stays fixed during one Save: builders[p] is the builder object at place p of the
      list (an object may occur at several places), stacks its hooks, store the database. */
  datatype Chain = Chain(mode: Mode, entity: Entity, builders: seq<nat>, stacks: seq<seq<Hook>>,
                         store: (seq<Event>, seq<Option<Spec>>) -> Option<Error>)
  {
    function Hooks(i: nat): seq<Hook>
      requires Valid() && i < |builders|
    {
      stacks[builders[i]]
    }

    predicate Valid()
    {
      && (forall i :: 0 <= i < |builders| ==> builders[i] < |stacks|)
      && (mode == Single ==> |builders| == 1)
    }
  }

  datatype Mutation = Mutation(draft: Draft, done: bool, foreign: bool)

  datatype World = World(mutations: seq<Mutation>, current: seq<nat>,
                         nodes: seq<Option<Fields>>, specs: seq<Option<Spec>>, trace: seq<Event>)

  /** Every reference in the world leads somewhere. */
  predicate Fits(c: Chain, w: World)
  {
    && c.Valid()
    && |w.nodes| == |w.specs| == |c.builders|
    && |w.current| == |c.stacks|
    && forall b :: 0 <= b < |w.current| ==> w.current[b] < |w.mutations|
  }

  function Log(w: World, e: Event): World
  {
    w.(trace := w.trace + [e])
  }

  function Edit(w: World, m: nat, d: Draft): World
    requires m < |w.mutations|
  {
    w.(mutations := w.mutations[m := w.mutations[m].(draft := d)])
  }

  /** The mutation a hook forwards: its own, or a new object. */
  function Pass(w: World, m: nat, arg: Argument): (World, nat)
    requires m < |w.mutations|
  {
    match arg
    case Same => (w, m)
    case Another(d, foreign) =>
      (w.(mutations := w.mutations + [Mutation(d, false, foreign)]), |w.mutations|)
  }

  predicate Ready(c: Chain, i: nat, j: nat, w: World, m: nat)
  {
    Fits(c, w) && i < |c.builders| && j <= |c.Hooks(i)| && m < |w.mutations|
  }

  /** Later worlds: nothing before place i of the two arrays is touched. */
  predicate Extends(c: Chain, i: nat, w: World, w': World)
    requires Fits(c, w)
  {
    && Fits(c, w')
    && |w.mutations| <= |w'.mutations|
    && w.trace <= w'.trace
    && (forall k :: 0 <= k < i && k < |c.builders| ==> w'.nodes[k] == w.nodes[k] && w'.specs[k] == w.specs[k])
  }

  /** Mutate at link (i, j). */
  function Run(c: Chain, i: nat, j: nat, w: World, m: nat): (r: (World, Reply))
    requires Ready(c, i, j, w, m)
    ensures Extends(c, i, w, r.0)
    decreases |c.builders| - i, |c.Hooks(i)| - j, 1, 0
  {
    if j == |c.Hooks(i)| then
      if c.mode.Bulk? then BulkCore(c, i, w, m) else SingleCore(c, w, m)
    else
      var (w', reply) := Consult(c, i, j, Log(w, Enter(i, j)), m, None, c.Hooks(i)[j].tries);
      (Log(w', Leave(i, j)), reply)
  }

  /** The body of a hook, from one of its decisions on. A hook that would forward more often
      than `tries` times is cut off with the latest reply. */
  function Consult(c: Chain, i: nat, j: nat, w: World, m: nat, last: Option<Reply>, left: nat): (r: (World, Reply))
    requires Ready(c, i, j, w, m) && j < |c.Hooks(i)|
    ensures Extends(c, i, w, r.0)
    decreases |c.builders| - i, |c.Hooks(i)| - j, 0, left
  {
    match c.Hooks(i)[j].step(w.trace, w.mutations[m].draft, last)
    case Answer(d, reply) => (Edit(if last.None? then Log(w, Refused(i, j)) else w, m, d), reply)
    case Forward(d, arg) =>
      if left == 0 then (Edit(w, m, d), last.GetOr(Err(HookError(0))))
      else
        var (w1, m1) := Pass(Edit(w, m, d), m, arg);
        var (w2, reply) := Run(c, i, j + 1, w1, m1);
        Consult(c, i, j, w2, m, Some(reply), left - 1)
  }

  /** The core of ShareFileCreateBulk.Save: check the builder's own mutation, adopt the one
      forwarded, fill place i, go on to the next builder or store the batch, mark as done. */
  function BulkCore(c: Chain, i: nat, w: World, m: nat): (r: (World, Reply))
    requires Fits(c, w) && i < |c.builders| && m < |w.mutations|
    ensures Extends(c, i, w, r.0)
    decreases |c.builders| - i, 0, 0, 1
  {
    if w.mutations[m].foreign then (Log(w, Rejected(i)), Err(UnexpectedMutation))
    else
      var checked := w.mutations[w.current[c.builders[i]]].draft;
      if c.entity.check(checked).Some? then
        (Log(w, Rejected(i)), Err(Invalid(c.entity.check(checked).value)))
      else
        var w1 := Build(c, w.(current := w.current[c.builders[i] := m]), i, checked, m);
        var (w2, reply) := Descend(c, i, w1);
        if reply.Err? then (w2, reply) else MarkDone(w2, i, m)
  }

  /** The next builder's chain, or after the last builder the one store. */
  function Descend(c: Chain, i: nat, w: World): (r: (World, Reply))
    requires Fits(c, w) && i < |c.builders|
    ensures Extends(c, i + 1, w, r.0)
    decreases |c.builders| - i, 0, 0, 0
  {
    if i < |c.builders| - 1 then Run(c, i + 1, 0, w, w.current[c.builders[i + 1]]) else StoreAll(c, w)
  }

  /** The core of withHooks around sqlSave: copy the forwarded mutation into the builder's own,
      check it, store one row, mark it as done. */
  function SingleCore(c: Chain, w: World, m: nat): (r: (World, Reply))
    requires Fits(c, w) && |c.builders| == 1 && m < |w.mutations|
    ensures Extends(c, 0, w, r.0)
  {
    if w.mutations[m].foreign then (Log(w, Rejected(0)), Err(UnexpectedMutation))
    else
      var own := w.current[c.builders[0]];
      var w0 := w.(mutations := w.mutations[own := w.mutations[m]]);
      var checked := w0.mutations[own].draft;
      if c.entity.check(checked).Some? then
        (Log(w0, Rejected(0)), Err(Invalid(c.entity.check(checked).value)))
      else
        var (w2, reply) := StoreAll(c, Build(c, w0, 0, checked, own));
        if reply.Err? then (w2, reply) else MarkDone(w2, 0, own)
  }

  /** nodes[i], specs[i] = createSpec() of mutation m. */
  function Build(c: Chain, w: World, i: nat, checked: Draft, m: nat): World
    requires i < |w.nodes| == |w.specs| && m < |w.mutations|
  {
    var (node, spec) := c.entity.createSpec(w.mutations[m].draft);
    Log(w.(nodes := w.nodes[i := Some(node)], specs := w.specs[i := Some(spec)]),
        Built(i, checked, w.mutations[m].draft))
  }

  /** BatchCreate or CreateNode: stores all specifications or none. */
  function StoreAll(c: Chain, w: World): (World, Reply)
  {
    var failure := c.store(w.trace, w.specs);
    (Log(w, Wrote(w.specs, failure.None?)), if failure.None? then Ok(Foreign) else Err(failure.value))
  }

  function MarkDone(w: World, i: nat, m: nat): (World, Reply)
    requires i < |w.nodes| && w.nodes[i].Some? && m < |w.mutations|
  {
    var w1 := Edit(w, m, w.mutations[m].draft.(id := Some(w.nodes[i].value.id)));
    (Log(w1.(mutations := w1.mutations[m := w1.mutations[m].(done := true)]), Marked(i)),
     Ok(Node(w.nodes[i].value)))
  }

  // ---------------------------------------------------------------------------------------
  // Save
  // ---------------------------------------------------------------------------------------

  function Start(c: Chain, mutations: seq<Mutation>, current: seq<nat>): World
  {
    World(mutations, current, seq(|c.builders|, i => None), seq(|c.builders|, i => None), [])
  }

  /** builder.defaults() of place i; stamps[i] is what the default functions return to it. */
  function SetDefaults(c: Chain, stamps: seq<Stamp>, w: World, i: nat): (World, Option<Failure>)
    requires Fits(c, w) && i < |c.builders| == |stamps|
  {
    var m := w.current[c.builders[i]];
    var (d, failure) := c.entity.defaults(stamps[i], w.mutations[m].draft);
    (Edit(w, m, d), failure)
  }

  /** The defaults of the first k builders, any failure among them ignored. */
  function AllDefaults(c: Chain, stamps: seq<Stamp>, w: World, k: nat): (r: World)
    requires Fits(c, w) && k <= |c.builders| == |stamps|
    ensures Fits(c, r) && r == w.(mutations := r.mutations) && |r.mutations| == |w.mutations|
  {
    if k == 0 then w else SetDefaults(c, stamps, AllDefaults(c, stamps, w, k - 1), k - 1).0
  }

  lemma {:induction false} AllDefaultsNext(c: Chain, stamps: seq<Stamp>, w: World, k: nat)
    requires Fits(c, w) && k < |c.builders| == |stamps|
    ensures AllDefaults(c, stamps, w, k + 1) == SetDefaults(c, stamps, AllDefaults(c, stamps, w, k), k).0
  {
  }

  /** ShareFileCreateBulk.Save */
  function BulkSave(c: Chain, stamps: seq<Stamp>, w: World): (World, Result<seq<Option<Fields>>, Error>)
    requires Fits(c, w) && |stamps| == |c.builders| && c.mode.Bulk?
  {
    var w1 := AllDefaults(c, stamps, w, |c.builders|);
    if |c.builders| == 0 then (w1, Ok(w1.nodes))
    else
      var (w2, reply) := Run(c, 0, 0, w1, w1.current[c.builders[0]]);
      (w2, if reply.Err? then Err(reply.error) else Ok(w2.nodes))
  }

  /** ShareFileCreate.Save, with no hook nil */
  function SingleSave(c: Chain, stamp: Stamp, w: World): (World, Result<Fields, Error>)
    requires Fits(c, w) && c.mode.Single?
  {
    var (w1, failure) := SetDefaults(c, [stamp], w, 0);
    if failure.Some? then (w1, Err(Invalid(failure.value)))
    else
      var (w2, reply) := Run(c, 0, 0, w1, w1.current[c.builders[0]]);
      (w2, match reply
           case Err(e) => Err(e)
           case Ok(Node(f)) => Ok(f)
           case Ok(Foreign) => Err(UnexpectedNode))
  }
}
