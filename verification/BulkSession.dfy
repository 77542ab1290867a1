// ShareFileCreateBulk.Save over real objects: builders and mutations are updated in place, two
// arrays are filled on the way down, and the whole is proved to be the chain of MutatorChain.
module BulkSession {
  import opened Wrappers
  import opened ShareFiles
  import opened MutatorChain

  class MutationObject {
    ghost const number: nat
    var draft: Draft
    var done: bool
    const foreign: bool

    constructor (draft: Draft, foreign: bool, ghost number: nat)
      ensures this.draft == draft && !done && this.foreign == foreign && this.number == number
    {
      this.draft, this.done, this.foreign, this.number := draft, false, foreign, number;
    }
  }

  class Builder {
    var mutation: MutationObject
    const hooks: seq<Hook>

    constructor (mutation: MutationObject, hooks: seq<Hook>)
      ensures this.mutation == mutation && this.hooks == hooks
    {
      this.mutation, this.hooks := mutation, hooks;
    }
  }

  /** The variables that the closures of one Save share. */
  class Session {
    const entity: Entity
    const store: (seq<Event>, seq<Option<Spec>>) -> Option<Error>
    const builders: seq<Builder>
    const nodes: array<Option<Fields>>
    const specs: array<Option<Spec>>
    var trace: seq<Event>

    ghost const chain: Chain
    ghost const pool: seq<Builder>           // the builder objects, each once
    ghost var objects: seq<MutationObject>   // the mutation objects, by number
    ghost var world: World

    ghost predicate Valid()
      reads this, nodes, specs, pool, objects
    {
      && Fits(chain, world) && chain.mode.Bulk? && chain.entity == entity && chain.store == store
      && |pool| == |chain.stacks|
      && (forall b :: 0 <= b < |pool| ==> pool[b].hooks == chain.stacks[b])
      && |builders| == |chain.builders|
      && (forall i :: 0 <= i < |builders| ==> builders[i] == pool[chain.builders[i]])
      && (forall b, b' :: 0 <= b < b' < |pool| ==> pool[b] != pool[b'])
      && |objects| == |world.mutations|
      && (forall m :: 0 <= m < |objects| ==> Shows(objects[m], m, world.mutations[m]))
      && (forall b :: 0 <= b < |pool| ==> world.current[b] < |objects| && pool[b].mutation == objects[world.current[b]])
      && nodes[..] == world.nodes && specs[..] == world.specs && trace == world.trace
    }

    static ghost predicate Shows(o: MutationObject, m: nat, value: Mutation)
      reads o
    {
      o.number == m && o.draft == value.draft && o.done == value.done && o.foreign == value.foreign
    }

    ghost predicate Owns(m: MutationObject)
      reads this
    {
      m.number < |objects| && objects[m.number] == m
    }

    /** A session over builders that hold, between them, the given mutation objects. */
    constructor (entity: Entity, store: (seq<Event>, seq<Option<Spec>>) -> Option<Error>, builders: seq<Builder>,
                 ghost c: Chain, ghost pool: seq<Builder>, ghost objects: seq<MutationObject>,
                 ghost mutations: seq<Mutation>, ghost current: seq<nat>)
      requires c.Valid() && c.mode.Bulk? && c.entity == entity && c.store == store
      requires |pool| == |c.stacks| == |current| && |builders| == |c.builders| && |objects| == |mutations|
      requires forall b :: 0 <= b < |pool| ==> pool[b].hooks == c.stacks[b]
      requires forall b, b' :: 0 <= b < b' < |pool| ==> pool[b] != pool[b']
      requires forall b :: 0 <= b < |pool| ==> current[b] < |objects| && pool[b].mutation == objects[current[b]]
      requires forall i :: 0 <= i < |builders| ==> builders[i] == pool[c.builders[i]]
      requires forall m :: 0 <= m < |objects| ==> Shows(objects[m], m, mutations[m])
      ensures Valid() && fresh(nodes) && fresh(specs)
      ensures this.builders == builders && this.pool == pool && this.objects == objects && chain == c
      ensures world == Start(c, mutations, current)
    {
      this.entity, this.store, this.builders := entity, store, builders;
      this.pool, this.objects, trace, chain := pool, objects, [], c;
      nodes := new Option<Fields>[|builders|](_ => None);
      specs := new Option<Spec>[|builders|](_ => None);
      world := Start(c, mutations, current);
      new;
      assert nodes[..] == world.nodes && specs[..] == world.specs;
    }

    /** What no step of a session gives up. */
    twostate predicate Continues()
      reads this
    {
      old(objects) <= objects && forall m :: |old(objects)| <= m < |objects| ==> fresh(objects[m])
    }

    method Note(e: Event)
      requires Valid()
      modifies this
      ensures Valid() && Continues() && objects == old(objects) && world == Log(old(world), e)
    {
      trace := trace + [e];
      world := Log(world, e);
    }

    method SetDraft(m: MutationObject, d: Draft)
      requires Valid() && Owns(m)
      modifies this, m
      ensures Valid() && Continues() && objects == old(objects) && world == Edit(old(world), m.number, d)
    {
      m.draft := d;
      world := Edit(world, m.number, d);
    }

    method Argue(m: MutationObject, arg: Argument) returns (m': MutationObject)
      requires Valid() && Owns(m)
      modifies this
      ensures Valid() && Continues() && Owns(m') && (world, m'.number) == Pass(old(world), m.number, arg)
    {
      match arg
      case Same =>
        m' := m;
      case Another(d, foreign) =>
        m' := new MutationObject(d, foreign, |objects|);
        objects := objects + [m'];
        world := world.(mutations := world.mutations + [MutatorChain.Mutation(d, false, foreign)]);
    }

    /** Mutate of the closure that hook j of builder i has become. */
    method Mutate(i: nat, j: nat, m: MutationObject) returns (reply: Reply)
      requires Valid() && Owns(m) && i < |builders| && j <= |builders[i].hooks|
      modifies this, nodes, specs, pool, objects
      ensures Valid() && Continues() && Owns(m)
      ensures (world, reply) == Run(chain, i, j, old(world), m.number)
      decreases |builders| - i, |builders[i].hooks| - j, 2
    {
      if j == |builders[i].hooks| {
        reply := Core(i, m);
      } else {
        Note(Enter(i, j));
        reply := CallHook(i, j, m, None, builders[i].hooks[j].tries);
        Note(Leave(i, j));
      }
    }

    method CallHook(i: nat, j: nat, m: MutationObject, last: Option<Reply>, left: nat) returns (reply: Reply)
      requires Valid() && Owns(m) && i < |builders| && j < |builders[i].hooks|
      modifies this, nodes, specs, pool, objects
      ensures Valid() && Continues() && Owns(m)
      ensures (world, reply) == Consult(chain, i, j, old(world), m.number, last, left)
      decreases |builders| - i, |builders[i].hooks| - j, 1, left
    {
      var step := builders[i].hooks[j].step(trace, m.draft, last);
      if step.Answer? || left == 0 {
        reply := Conclude(i, j, m, last, step);
      } else {
        var r := CallNext(i, j, m, step.edit, step.arg);
        reply := CallHook(i, j, m, Some(r), left - 1);
      }
    }

    /** Hook j returns. */
    method Conclude(i: nat, j: nat, m: MutationObject, last: Option<Reply>, step: Step) returns (reply: Reply)
      requires Valid() && Owns(m)
      modifies this, m
      ensures Valid() && Continues() && objects == old(objects)
      ensures var before := old(world);
        world == Edit(if step.Answer? && last.None? then Log(before, Refused(i, j)) else before, m.number, step.edit)
      ensures reply == if step.Answer? then step.reply else last.GetOr(Err(HookError(0)))
    {
      if step.Answer? && last.None? {
        Note(Refused(i, j));
      }
      SetDraft(m, step.edit);
      reply := if step.Answer? then step.reply else last.GetOr(Err(HookError(0)));
    }

    /** next.Mutate, called from inside hook j with the mutation edited to d. */
    method CallNext(i: nat, j: nat, m: MutationObject, d: Draft, arg: Argument) returns (reply: Reply)
      requires Valid() && Owns(m) && i < |builders| && j < |builders[i].hooks|
      modifies this, nodes, specs, pool, objects
      ensures Valid() && Continues() && Owns(m)
      ensures var (w1, m1) := Pass(Edit(old(world), m.number, d), m.number, arg);
        (world, reply) == Run(chain, i, j + 1, w1, m1)
      decreases |builders| - i, |builders[i].hooks| - j, 0
    {
      SetDraft(m, d);
      var m' := Argue(m, arg);
      reply := Mutate(i, j + 1, m');
    }

    /** The innermost mutator of builder i. */
    method Core(i: nat, m: MutationObject) returns (reply: Reply)
      requires Valid() && Owns(m) && i < |builders|
      modifies this, nodes, specs, pool, objects
      ensures Valid() && Continues() && Owns(m)
      ensures (world, reply) == BulkCore(chain, i, old(world), m.number)
      decreases |builders| - i, 0, 1
    {
      var checked := builders[i].mutation.draft;
      var failure := entity.check(checked);
      if m.foreign {
        Note(Rejected(i));
        reply := Err(UnexpectedMutation);
      } else if failure.Some? {
        Note(Rejected(i));
        reply := Err(Invalid(failure.value));
      } else {
        Adopt(i, m);
        Fill(i, m, checked);
        reply := GoOn(i);
        if reply.Ok? {
          reply := Mark(i, m);
        }
      }
    }

    /** builder.mutation = mutation */
    method Adopt(i: nat, m: MutationObject)
      requires Valid() && Owns(m) && i < |builders|
      modifies this, builders[i]
      ensures Valid() && Continues() && objects == old(objects)
      ensures world == old(world).(current := old(world).current[chain.builders[i] := m.number])
    {
      builders[i].mutation := m;
      world := world.(current := world.current[chain.builders[i] := m.number]);
    }

    method GoOn(i: nat) returns (reply: Reply)
      requires Valid() && i < |builders|
      modifies this, nodes, specs, pool, objects
      ensures Valid() && Continues()
      ensures (world, reply) == Descend(chain, i, old(world))
      decreases |builders| - i, 0, 0
    {
      if i < |builders| - 1 {
        reply := Mutate(i + 1, 0, builders[i + 1].mutation);
      } else {
        reply := Store();
      }
    }

    method Fill(i: nat, m: MutationObject, checked: Draft)
      requires Valid() && Owns(m) && i < |builders|
      modifies this, nodes, specs
      ensures Valid() && Continues() && objects == old(objects)
      ensures world == Build(chain, old(world), i, checked, m.number)
    {
      var created := entity.createSpec(m.draft);
      nodes[i], specs[i] := Some(created.0), Some(created.1);
      trace := trace + [Built(i, checked, m.draft)];
      world := Build(chain, world, i, checked, m.number);
    }

    method Store() returns (reply: Reply)
      requires Valid()
      modifies this
      ensures Valid() && Continues() && objects == old(objects)
      ensures (world, reply) == StoreAll(chain, old(world))
    {
      var failure := store(trace, specs[..]);
      Note(Wrote(specs[..], failure.None?));
      reply := if failure.None? then Ok(Foreign) else Err(failure.value);
    }

    method Mark(i: nat, m: MutationObject) returns (reply: Reply)
      requires Valid() && Owns(m) && i < |builders| && world.nodes[i].Some?
      modifies this, m
      ensures Valid() && Continues() && objects == old(objects)
      ensures (world, reply) == MarkDone(old(world), i, m.number)
    {
      var node := nodes[i].value;
      m.draft := m.draft.(id := Some(node.id));
      m.done := true;
      trace := trace + [Marked(i)];
      reply := Ok(Node(node));
      world := MarkDone(world, i, m.number).0;
    }

    /** builder.defaults(), its error dropped, after those of the builders before it */
    method Default(i: nat, stamps: seq<Stamp>, ghost start: World)
      requires Valid() && i < |builders| == |stamps|
      requires Fits(chain, start) && world == AllDefaults(chain, stamps, start, i)
      modifies this, objects
      ensures Valid() && Continues() && objects == old(objects)
      ensures world == AllDefaults(chain, stamps, start, i + 1)
    {
      AllDefaultsNext(chain, stamps, start, i);
      var m := builders[i].mutation;
      SetDraft(m, entity.defaults(stamps[i], m.draft).0);
    }

    method DefaultAll(stamps: seq<Stamp>)
      requires Valid() && |stamps| == |builders|
      modifies this, objects
      ensures Valid() && Continues() && objects == old(objects)
      ensures world == AllDefaults(chain, stamps, old(world), |builders|)
    {
      ghost var start := world;
      for i := 0 to |builders|
        invariant Valid() && objects == old(objects)
        invariant world == AllDefaults(chain, stamps, start, i)
      {
        Default(i, stamps, start);
      }
    }

    /** Save itself: set defaults everywhere, then call the outermost mutator. */
    method Save(stamps: seq<Stamp>) returns (result: Result<seq<Option<Fields>>, Error>)
      requires Valid() && |stamps| == |builders|
      modifies this, nodes, specs, pool, objects
      ensures Valid() && Continues()
      ensures (world, result) == BulkSave(chain, stamps, old(world))
    {
      DefaultAll(stamps);
      if |builders| == 0 {
        return Ok(nodes[..]);
      }
      var reply := Mutate(0, 0, builders[0].mutation);
      result := if reply.Err? then Err(reply.error) else Ok(nodes[..]);
    }
  }
}
