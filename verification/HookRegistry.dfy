// The hook lists of the clients: registered through Use, read through Hooks, handed to builders
// by Create, and shared, backing arrays included, by every client made from one configuration.
module HookRegistry {
  import opened Wrappers
  import opened GoSlices

  // Entities by their place in the hooks struct.
  const ENTITIES := 15
  const SHARE_FILE := 8
  const TRANSFER_ITEM := 11
  const TRANSFER_JOB := 12

  type Entity = e: nat | e < ENTITIES

  datatype Hook = Validate(e: nat) | Registered(name: nat)

  /** The hooks that the schema of an entity declares; three entities have one. */
  function SchemaHooks(e: Entity): seq<Hook>
  {
    if e == SHARE_FILE || e == TRANSFER_ITEM || e == TRANSFER_JOB then [Validate(e)] else []
  }

  /** Share files, transfer items and transfer jobs have a schema hook, each its own; no other entity
      has one. */
  lemma {:induction false} SchemaHooksAre(e: Entity)
    ensures SchemaHooks(SHARE_FILE) == [Validate(SHARE_FILE)]
    ensures SchemaHooks(TRANSFER_ITEM) == [Validate(TRANSFER_ITEM)]
    ensures SchemaHooks(TRANSFER_JOB) == [Validate(TRANSFER_JOB)]
    ensures e !in {SHARE_FILE, TRANSFER_ITEM, TRANSFER_JOB} ==> SchemaHooks(e) == []
  {
  }

  /** A list handed to a builder, and what it held at that moment. */
  datatype Issued = Issued(slice: Slice<Hook>, contents: seq<Hook>)

  class Registry {
    var lists: seq<Slice<Hook>>
    ghost var issued: seq<Issued>
    ghost var arrays: set<array<Hook>>

    ghost predicate Valid()
      reads this, arrays
    {
      && |lists| == ENTITIES
      && (forall e :: 0 <= e < ENTITIES ==> lists[e].Fits() && lists[e].arr in arrays)
      && (forall e, e' :: 0 <= e < e' < ENTITIES && lists[e].arr == lists[e'].arr ==>
            lists[e].cap == lists[e'].cap == 0)
      && (forall k :: 0 <= k < |issued| ==> Intact(issued[k]))
      && (forall k, e :: 0 <= k < |issued| && 0 <= e < ENTITIES && issued[k].slice.arr == lists[e].arr ==>
            issued[k].slice.len <= lists[e].len)
    }

    /** A list that was handed out still reads as it did then. */
    ghost predicate Intact(i: Issued)
      reads this, arrays
    {
      i.slice.arr in arrays && i.slice.Fits() && i.slice.View() == i.contents
    }

    ghost function Contents(e: Entity): seq<Hook>
      requires Valid()
      reads this, arrays
    {
      lists[e].View()
    }

    constructor ()
      ensures Valid() && fresh(arrays) && issued == []
      ensures forall e: Entity :: Contents(e) == []
    {
      var nil := new Hook[0];
      lists := seq(ENTITIES, _ => Slice(nil, 0, 0));
      issued, arrays := [], {nil};
    }

    /** client.X.Use(hooks...) */
    method Use(e: Entity, hooks: seq<Hook>, room: nat)
      requires Valid()
      modifies this, lists[e].arr
      ensures Valid() && fresh(arrays - old(arrays)) && old(arrays) <= arrays && issued == old(issued)
      ensures Contents(e) == old(Contents(e)) + hooks
      ensures forall e': Entity :: e' != e ==> Contents(e') == old(Contents(e'))
    {
      var r := Append(lists[e], hooks, room);
      lists := lists[e := r];
      arrays := arrays + {r.arr};
    }

    /** client.X.Hooks(). Nothing that existed before is written to: not the registered part of
        any list, and not the spare capacity behind it either. */
    method Hooks(e: Entity, room: nat) returns (s: Slice<Hook>)
      requires Valid()
      modifies lists[e].arr, this`arrays
      ensures Valid() && fresh(arrays - old(arrays)) && old(arrays) <= arrays
      ensures s.arr in arrays && s.Fits() && s.View() == Contents(e) + SchemaHooks(e)
      ensures forall a <- old(arrays) :: a[..] == old(a[..])
      ensures if SchemaHooks(e) == [] then s == lists[e] else fresh(s.arr)
    {
      s := lists[e];
      if SchemaHooks(e) != [] {
        s := Append(s.Clip(), SchemaHooks(e), room);
        arrays := arrays + {s.arr};
      }
    }

    /** client.X.Create(), as far as hooks go: the builder keeps what Hooks returned. */
    method Create(e: Entity, room: nat) returns (s: Slice<Hook>)
      requires Valid()
      modifies lists[e].arr, this`arrays, this`issued
      ensures Valid() && fresh(arrays - old(arrays)) && old(arrays) <= arrays
      ensures s.Fits() && s.View() == old(Contents(e)) + SchemaHooks(e)
      ensures issued == old(issued) + [Issued(s, s.View())]
      ensures forall e': Entity :: Contents(e') == old(Contents(e'))
    {
      s := Hooks(e, room);
      issued := issued + [Issued(s, s.View())];
    }
  }

  // ---------------------------------------------------------------------------------------
  // Clients
  // ---------------------------------------------------------------------------------------

  datatype Driver = Database | Transaction(under: Driver) | Debugging(under: Driver)

  /** A client is its configuration; copies of it share the registry. */
  datatype Client = Client(driver: Driver, debug: bool, registry: Registry)
  {
    /** Client.Tx, for a database that can start a transaction */
    function Tx(): Option<Client>
    {
      if driver.Transaction? then None else Some(this.(driver := Transaction(driver)))
    }

    function Debug(): Client
    {
      if debug then this else this.(driver := Debugging(driver))
    }

    /** Client.Use: the hooks go to every entity. */
    method Use(hooks: seq<Hook>, rooms: seq<nat>)
      requires registry.Valid() && |rooms| == ENTITIES
      modifies registry, registry.arrays
      ensures registry.Valid() && registry.issued == old(registry.issued)
      ensures fresh(registry.arrays - old(registry.arrays)) && old(registry.arrays) <= registry.arrays
      ensures forall e: Entity :: registry.Contents(e) == old(registry.Contents(e)) + hooks
    {
      for e := 0 to ENTITIES
        invariant registry.Valid() && registry.issued == old(registry.issued)
        invariant fresh(registry.arrays - old(registry.arrays)) && old(registry.arrays) <= registry.arrays
        invariant forall e': Entity ::
          registry.Contents(e') == old(registry.Contents(e')) + if e' < e then hooks else []
      {
        registry.Use(e, hooks, rooms[e]);
      }
    }
  }

  /** A client inside a transaction starts no other; one that is not keeps its registry and driver
      in the one it starts. A client made with the debug option is its own debug client. */
  lemma {:induction false} TxOnce(c: Client)
    ensures c.Tx().None? <==> c.driver.Transaction?
    ensures c.Tx().Some? ==>
      var tx := c.Tx().value;
      tx.registry == c.registry && tx.debug == c.debug && tx.driver == Transaction(c.driver) && tx.Tx().None?
    ensures c.Debug().registry == c.registry && c.Debug().debug == c.debug
    ensures c.Debug().driver == if c.debug then c.driver else Debugging(c.driver)
  {
  }

  /** One step of a program that works with clients; `client` picks one of those made so far,
      `room` is what the runtime does about spare capacity. */
  datatype Op =
    | UseOne(client: nat, e: Entity, hooks: seq<Hook>, room: nat)
    | UseAll(client: nat, hooks: seq<Hook>, rooms: seq<nat>)
    | ReadHooks(client: nat, e: Entity, room: nat)
    | Create(client: nat, e: Entity, room: nat)
    | BeginTx(client: nat)
    | BeginDebug(client: nat)

  /** The hooks one step registers for an entity. */
  function Registers(op: Op, e: Entity): seq<Hook>
  {
    if op.UseOne? && op.e == e then op.hooks else if op.UseAll? then op.hooks else []
  }

  /** The hooks that a program registers for an entity, through whichever client. */
  function RegisteredBy(ops: seq<Op>, e: Entity): seq<Hook>
  {
    if ops == [] then [] else RegisteredBy(ops[..|ops| - 1], e) + Registers(ops[|ops| - 1], e)
  }

  lemma {:induction false} RegisteredStep(ops: seq<Op>, i: nat, e: Entity)
    requires i < |ops|
    ensures RegisteredBy(ops[..i + 1], e) == RegisteredBy(ops[..i], e) + Registers(ops[i], e)
  {
    assert ops[..i + 1][..i] == ops[..i];
  }

  method RunStep(r: Registry, clients: seq<Client>, op: Op) returns (clients': seq<Client>, made: Option<Slice<Hook>>)
    requires r.Valid() && clients != [] && forall c <- clients :: c.registry == r
    requires op.UseAll? ==> |op.rooms| == ENTITIES
    modifies r, r.arrays
    ensures r.Valid() && fresh(r.arrays - old(r.arrays)) && old(r.arrays) <= r.arrays
    ensures clients' != [] && forall c <- clients' :: c.registry == r
    ensures forall e: Entity :: r.Contents(e) == old(r.Contents(e)) + Registers(op, e)
    ensures made.Some? <==> op.Create?
    ensures r.issued == old(r.issued) +
      if op.Create? then [Issued(made.value, old(r.Contents(op.e)) + SchemaHooks(op.e))] else []
  {
    var c := clients[op.client % |clients|];
    clients', made := clients, None;
    match op {
      case UseOne(_, e, hooks, room) => c.registry.Use(e, hooks, room);
      case UseAll(_, hooks, rooms) => c.Use(hooks, rooms);
      case ReadHooks(_, e, room) => var _ := c.registry.Hooks(e, room);
      case Create(_, e, room) =>
        var s := c.registry.Create(e, room);
        made := Some(s);
      case BeginTx(_) => clients' := if c.Tx().Some? then clients + [c.Tx().value] else clients;
      case BeginDebug(_) => clients' := clients + [c.Debug()];
    }
  }

  /** Every interleaving of registering, reading and creating, through clients, transactions and
      debug clients alike: when all is done, the list of each builder still reads as the hooks
      registered before its creation, in order, followed by the schema's own. */
  method RunProgram(client: Client, ops: seq<Op>) returns (made: seq<Option<Slice<Hook>>>)
    requires client.registry.Valid() && forall e: Entity :: client.registry.Contents(e) == []
    requires forall p :: 0 <= p < |ops| && ops[p].UseAll? ==> |ops[p].rooms| == ENTITIES
    modifies client.registry, client.registry.arrays
    ensures |made| == |ops|
    ensures forall p :: 0 <= p < |ops| ==> (made[p].Some? <==> ops[p].Create?)
    ensures forall p :: 0 <= p < |ops| && ops[p].Create? ==>
      made[p].value.Fits() && made[p].value.View() == RegisteredBy(ops[..p], ops[p].e) + SchemaHooks(ops[p].e)
  {
    var r, clients := client.registry, [client];
    made := [];
    for i := 0 to |ops|
      invariant r.Valid() && fresh(r.arrays - old(r.arrays)) && old(r.arrays) <= r.arrays
      invariant clients != [] && forall c <- clients :: c.registry == r
      invariant forall e: Entity :: r.Contents(e) == RegisteredBy(ops[..i], e)
      invariant |made| == i
      invariant forall p :: 0 <= p < i ==> (made[p].Some? <==> ops[p].Create?)
      invariant forall p :: 0 <= p < i && ops[p].Create? ==>
        Issued(made[p].value, RegisteredBy(ops[..p], ops[p].e) + SchemaHooks(ops[p].e)) in r.issued
    {
      forall e: Entity {
        RegisteredStep(ops, i, e);
      }
      var slice;
      clients, slice := RunStep(r, clients, ops[i]);
      made := made + [slice];
    }
    forall p | 0 <= p < |ops| && ops[p].Create?
      ensures made[p].value.Fits() && made[p].value.View() == RegisteredBy(ops[..p], ops[p].e) + SchemaHooks(ops[p].e)
    {
      IssuedReads(r, made[p].value, RegisteredBy(ops[..p], ops[p].e) + SchemaHooks(ops[p].e));
    }
  }

  /** A list on record reads as it did when it was handed out. */
  lemma {:induction false} IssuedReads(r: Registry, s: Slice<Hook>, hooks: seq<Hook>)
    requires r.Valid() && Issued(s, hooks) in r.issued
    ensures s.Fits() && s.View() == hooks
  {
    var k :| 0 <= k < |r.issued| && r.issued[k] == Issued(s, hooks);
    assert r.Intact(r.issued[k]);
  }

  // ---------------------------------------------------------------------------------------
  // What the third index is for
  // ---------------------------------------------------------------------------------------

  /** Hooks as it would be without the capped slice: append(hooks, schema...) straight onto the
      registered list. A builder's list is then overwritten by the next registration exactly
      when that registration finds room in the same spare capacity and begins otherwise. */
  method UncappedSnapshot(list: Slice<Hook>, schema: Hook, hooks: seq<Hook>, room: nat)
      returns (handedOut: seq<Hook>, later: seq<Hook>)
    requires list.Fits()
    modifies list.arr
    ensures handedOut == old(list.View()) + [schema]
    ensures later == handedOut <==> !(0 < |hooks| <= list.cap - list.len && hooks[0] != schema)
  {
    var builder := Append(list, [schema], room);
    handedOut := builder.arr[..builder.len];
    var registered := Append(list, hooks, room);
    later := builder.arr[..builder.len];
    assert registered.View() == handedOut[..list.len] + hooks;
    if 0 < |hooks| <= list.cap - list.len {
      assert later[list.len] == hooks[0] && handedOut[list.len] == schema;
    }
  }
}
