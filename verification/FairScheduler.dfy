/**
 * Enqueueing and dequeueing tasks, and throttling and unthrottling queues, on
 * one CPU's tree of run queues.
 */
module FairScheduler {
  import opened Common
  import opened Arithmetic
  import opened Sums
  import opened RunQueueTree
  import opened HierarchyWalk
  import opened HierarchyGrowth

  class CfsRq {
    const id: nat
    /** The entity that stands for this queue one level up; null for the root. */
    const se: SchedEntity?
    var loadWeight: int
    var nrRunning: int
    var hNrRunning: int
    var throttled: bool
    var runtimeEnabled: bool
    var runtimeRemaining: int
    var curr: SchedEntity?

    constructor (id: nat, se: SchedEntity?)
      ensures this.id == id && this.se == se
      ensures loadWeight == 0 && nrRunning == 0 && hNrRunning == 0
      ensures !throttled && !runtimeEnabled && curr == null
    {
      this.id, this.se := id, se;
      loadWeight, nrRunning, hNrRunning := 0, 0, 0;
      throttled, runtimeEnabled, runtimeRemaining, curr := false, false, 0, null;
    }
  }

  class SchedEntity {
    const id: nat
    /** The queue this entity is (to be) queued on, and the entity one level up. */
    const cfsRq: CfsRq
    const parent: SchedEntity?
    /** The queue this entity owns; null for a task. */
    var myQ: CfsRq?
    var onRq: bool
    var weight: int

    constructor (id: nat, cfsRq: CfsRq, weight: nat)
      ensures this.id == id && this.cfsRq == cfsRq && parent == cfsRq.se
      ensures myQ == null && !onRq && this.weight == weight
    {
      this.id, this.cfsRq, this.parent, this.weight := id, cfsRq, cfsRq.se, weight;
      myQ, onRq := null, false;
    }
  }

  class Rq {
    const root: CfsRq
    /** The CFS part of rq->nr_running. */
    var nrRunning: int
    /** The objects by number, and how they are linked. */
    ghost var queues: map<nat, CfsRq>
    ghost var entities: map<nat, SchedEntity>
    ghost var shape: Shape

    // ------------------------------------------- what the objects hold

    ghost function Counters(): (m: map<nat, int>)
      reads `queues, queues.Values`hNrRunning
    {
      map i | i in queues :: queues[i].hNrRunning
    }

    ghost function ThrottledQueues(): (s: set<nat>)
      reads `queues, queues.Values`throttled
    {
      set i | i in queues && queues[i].throttled
    }

    ghost function OnRq(): (s: set<nat>)
      reads `entities, entities.Values`onRq
    {
      set i | i in entities && entities[i].onRq
    }

    ghost function Weights(): (m: map<nat, int>)
      reads `entities, entities.Values`weight
    {
      map i | i in entities :: entities[i].weight
    }

    ghost function Loads(): (m: map<nat, int>)
      reads `queues, queues.Values`loadWeight
    {
      map i | i in queues :: queues[i].loadWeight
    }

    ghost function Occupancy(): (m: map<nat, int>)
      reads `queues, queues.Values`nrRunning
    {
      map i | i in queues :: queues[i].nrRunning
    }

    /** The limited queues with nothing running and no runtime left. */
    ghost function Due(): (s: set<nat>)
      reads `queues, queues.Values`runtimeEnabled, queues.Values`curr, queues.Values`runtimeRemaining
    {
      set i | i in queues && queues[i].runtimeEnabled && queues[i].curr == null && queues[i].runtimeRemaining <= 0
    }

    ghost function St(): State
      reads `queues, `entities, `shape, `nrRunning, queues.Values`hNrRunning, queues.Values`throttled, entities.Values`onRq
    {
      State(shape, OnRq(), Counters(), ThrottledQueues(), nrRunning)
    }

    ghost function Bk(): Book
      reads `queues, `entities, queues.Values`loadWeight, queues.Values`nrRunning, entities.Values`weight
    {
      Book(Weights(), Loads(), Occupancy())
    }

    ghost predicate HasQueue(q: CfsRq)
      reads `queues
    {
      q.id in queues && queues[q.id] == q
    }

    ghost predicate HasEntity(e: SchedEntity)
      reads `entities
    {
      e.id in entities && entities[e.id] == e
    }

    ghost predicate Named()
      reads `queues, `entities
    {
      && (forall i {:trigger queues[i]} :: i in queues ==> queues[i].id == i)
      && (forall i {:trigger entities[i]} :: i in entities ==> entities[i].id == i)
    }

    /** The objects are linked the way the shape says. */
    ghost predicate Wired()
      reads `queues, `entities, `shape, entities.Values`myQ
    {
      && queues.Keys == shape.queues && entities.Keys == shape.entities
      && HasQueue(root) && root.id == shape.root
      && QueuesWired() && EntitiesWired() && OwnersWired()
    }

    ghost predicate QueuesWired()
      reads `queues, `entities, `shape
    {
      && (forall i {:trigger queues[i].se} :: i in queues ==> (queues[i].se == null <==> i !in shape.se))
      && (forall i {:trigger queues[i].se} :: i in queues && queues[i].se != null ==>
            HasEntity(queues[i].se) && i in shape.se && shape.se[i] == queues[i].se.id)
    }

    ghost predicate EntitiesWired()
      reads `queues, `entities, `shape
    {
      && (forall i {:trigger entities[i].cfsRq} :: i in entities ==>
            HasQueue(entities[i].cfsRq) && i in shape.on && shape.on[i] == entities[i].cfsRq.id)
      && (forall i {:trigger entities[i].parent} :: i in entities ==> entities[i].parent == entities[i].cfsRq.se)
    }

    ghost predicate OwnersWired()
      reads `queues, `entities, `shape, entities.Values`myQ
    {
      && (forall i {:trigger entities[i].myQ} :: i in entities ==> (entities[i].myQ == null <==> i !in shape.owned))
      && (forall i {:trigger entities[i].myQ} :: i in entities && entities[i].myQ != null ==>
            HasQueue(entities[i].myQ) && i in shape.owned && shape.owned[i] == entities[i].myQ.id)
    }

    ghost predicate Sound()
      reads this, root, queues.Values, entities.Values
    {
      Named() && Wired() && !root.runtimeEnabled && Tree(St()) && Balanced(St(), Bk())
    }

    constructor (root: CfsRq)
      requires root.id == 0 && root.se == null && !root.throttled && !root.runtimeEnabled
      requires root.hNrRunning == 0 && root.loadWeight == 0 && root.nrRunning == 0
      ensures this.root == root && Sound() && St() == EmptyState()
    {
      hide Valid, Tree, Balanced, St, Bk, Named, Wired;
      this.root, nrRunning := root, 0;
      queues, entities := map[0 := root], map[];
      shape := EmptyState().shape;
      new;
      EmptyValid();
      NewMirrors();
      NewWired();
    }

    ghost predicate New()
      reads this, root
    {
      && root.id == 0 && root.se == null && !root.throttled && !root.runtimeEnabled
      && root.hNrRunning == 0 && root.loadWeight == 0 && root.nrRunning == 0
      && nrRunning == 0 && queues == map[0 := root] && entities == map[] && shape == EmptyState().shape
    }

    lemma NewMirrors()
      requires New()
      ensures St() == EmptyState() && Bk() == EmptyBook()
    {
      assert OnRq() == {} && Counters() == map[0 := 0] && ThrottledQueues() == {};
      assert Weights() == map[] && Loads() == map[0 := 0] && Occupancy() == map[0 := 0];
    }

    lemma NewWired()
      requires New()
      ensures Named() && Wired()
    {
      assert queues.Keys == {0};
    }

    // ------------------------------------------------- tasks and groups

    /** A task that may run on one of the queues. */
    method AddTask(p: SchedEntity)
      requires Sound() && Valid(St()) && HasQueue(p.cfsRq) && p.parent == p.cfsRq.se
      requires p.id !in entities && p.myQ == null && !p.onRq && p.weight >= 1
      modifies `entities, `shape
      ensures Sound() && Valid(St()) && Runnable(St()) == Runnable(old(St()))
      ensures entities == old(entities)[p.id := p] && St() == WithTask(old(St()), p.id, p.cfsRq.id)
    {
      hide Sum, Tree, Balanced, Wired, Named, St, Bk, Valid;
      Own(p.cfsRq);
      SameShape();
      WithTaskValid(St(), p.id, p.cfsRq.id);
      WithTaskKept(St(), Bk(), p.id, p.cfsRq.id, p.weight);
      Register(p);
    }

    method Register(p: SchedEntity)
      requires Named() && Wired() && Tree(St()) && HasQueue(p.cfsRq) && p.parent == p.cfsRq.se
      requires p.id !in entities && p.myQ == null && !p.onRq
      modifies `entities, `shape
      ensures Named() && Wired() && entities == old(entities)[p.id := p]
      ensures St() == WithTask(old(St()), p.id, p.cfsRq.id)
      ensures Bk() == old(Bk()).(weight := old(Bk()).weight[p.id := p.weight])
    {
      hide Tree, Balanced, Wired, Named, St, Bk, Valid;
      NotOwned(p.id);
      entities := entities[p.id := p];
      shape := TaskShape(shape, p.id, p.cfsRq.id);
      RegisteredWired(p);
      RegisteredState(p);
      RegisteredBook(p);
    }

    lemma NotOwned(e: nat)
      requires Wired() && Tree(St()) && e !in entities
      ensures e !in shape.owned && e !in shape.se.Values
    {
    }

    twostate predicate Registering(p: SchedEntity)
      reads this, p
    {
      && old(p.id !in entities && HasQueue(p.cfsRq)) && p.parent == p.cfsRq.se && p.myQ == null && !p.onRq
      && old(p.id !in shape.owned && p.id !in shape.se.Values)
      && entities == old(entities)[p.id := p] && shape == TaskShape(old(shape), p.id, p.cfsRq.id)
      && queues == old(queues) && nrRunning == old(nrRunning)
    }

    twostate lemma RegisteredWired(p: SchedEntity)
      requires old(Named() && Wired()) && Registering(p)
      requires forall e :: e in old(entities.Values) ==> e.myQ == old(e.myQ)
      ensures Named() && Wired()
    {
      RegisteredQueues(p);
      RegisteredEntities(p);
      RegisteredOwners(p);
      hide QueuesWired, EntitiesWired, OwnersWired;
    }

    twostate lemma RegisteredQueues(p: SchedEntity)
      requires old(Named() && QueuesWired()) && Registering(p)
      ensures QueuesWired()
    {
    }

    twostate lemma RegisteredEntities(p: SchedEntity)
      requires old(Named() && EntitiesWired()) && Registering(p)
      ensures EntitiesWired()
    {
      forall i | i in entities
        ensures HasQueue(entities[i].cfsRq) && i in shape.on && shape.on[i] == entities[i].cfsRq.id
        ensures entities[i].parent == entities[i].cfsRq.se
      {
        if i == p.id {
          assert entities[i] == p;
        } else {
          assert entities[i] == old(entities[i]) && entities[i].cfsRq == old(entities[i]).cfsRq;
        }
      }
    }

    twostate lemma RegisteredOwners(p: SchedEntity)
      requires old(Named() && OwnersWired()) && Registering(p)
      requires forall e :: e in old(entities.Values) ==> e.myQ == old(e.myQ)
      ensures OwnersWired()
    {
      forall i | i in entities
        ensures entities[i].myQ == null <==> i !in shape.owned
        ensures entities[i].myQ != null ==> HasQueue(entities[i].myQ) && i in shape.owned && shape.owned[i] == entities[i].myQ.id
      {
        if i == p.id {
          assert entities[i] == p;
        } else {
          assert entities[i].myQ == old(entities[i].myQ);
        }
      }
    }

    twostate lemma RegisteredState(p: SchedEntity)
      requires old(Named() && Wired()) && Registering(p)
      requires forall e :: e in old(entities.Values) ==> e.onRq == old(e.onRq)
      requires forall q :: q in old(queues.Values) ==> q.hNrRunning == old(q.hNrRunning) && q.throttled == old(q.throttled)
      ensures St() == WithTask(old(St()), p.id, p.cfsRq.id)
    {
      assert OnRq() == old(OnRq());
    }

    twostate lemma RegisteredBook(p: SchedEntity)
      requires old(Named() && Wired()) && Registering(p)
      requires forall e :: e in old(entities.Values) ==> e.weight == old(e.weight)
      requires forall q :: q in old(queues.Values) ==> q.loadWeight == old(q.loadWeight) && q.nrRunning == old(q.nrRunning)
      ensures Bk() == old(Bk()).(weight := old(Bk()).weight[p.id := p.weight])
    {
      assert Weights() == old(Weights())[p.id := p.weight];
    }

    /** init_tg_cfs_entry: a new group's entity se, queued nowhere yet, and its empty queue c. */
    method InitTgCfsEntry(c: CfsRq, se: SchedEntity)
      requires Sound() && Valid(St()) && HasQueue(se.cfsRq) && se.parent == se.cfsRq.se
      requires se.id !in entities && se.myQ == null && !se.onRq && se.weight >= 1
      requires c.se == se && c.id !in queues && !c.throttled && c.hNrRunning == 0 && c.loadWeight == 0 && c.nrRunning == 0
      modifies `entities, `queues, `shape, se`myQ
      ensures Sound() && Valid(St()) && Runnable(St()) == Runnable(old(St()))
      ensures entities == old(entities)[se.id := se] && queues == old(queues)[c.id := c] && se.myQ == c
      ensures St().onRq == old(St()).onRq && St().throttled == old(St()).throttled && St().total == old(St()).total
      ensures St().h == old(St()).h[c.id := 0]
    {
      hide Tree, Balanced, Wired, Named, St, Bk, Valid;
      AddTask(se);
      AddGroup(c, se);
    }

    method AddGroup(c: CfsRq, se: SchedEntity)
      requires Sound() && Valid(St()) && HasEntity(se) && se.myQ == null && !se.onRq
      requires c.se == se && c.id !in queues && !c.throttled && c.hNrRunning == 0 && c.loadWeight == 0 && c.nrRunning == 0
      modifies `queues, `shape, se`myQ
      ensures Sound() && Valid(St()) && Runnable(St()) == Runnable(old(St()))
      ensures queues == old(queues)[c.id := c] && se.myQ == c
      ensures St() == WithGroup(old(St()), se.id, c.id)
    {
      hide Sum, Tree, Balanced, Wired, Named, St, Bk, Valid;
      SameShape();
      NotOwner(se);
      LookupEntity(se);
      NotThrottled(c.id);
      WithGroupKept(St(), Bk(), se.id, c.id);
      WithGroupValid(St(), se.id, c.id);
      Adopt(c, se);
    }

    lemma NotThrottled(c: nat)
      requires c !in queues
      ensures c !in St().throttled
    {
    }

    method Adopt(c: CfsRq, se: SchedEntity)
      requires Named() && Wired() && Tree(St()) && HasEntity(se) && se.myQ == null && HasQueue(se.cfsRq)
      requires c.se == se && c.id !in queues && !c.throttled && c.hNrRunning == 0 && c.loadWeight == 0 && c.nrRunning == 0
      modifies `queues, `shape, se`myQ
      ensures Named() && Wired() && queues == old(queues)[c.id := c] && se.myQ == c
      ensures St() == WithGroup(old(St()), se.id, c.id)
      ensures Bk() == old(Bk()).(load := old(Bk()).load[c.id := 0], nr := old(Bk()).nr[c.id := 0])
    {
      hide Tree, Balanced, Wired, Named, St, Bk, Valid;
      Unlinked(c.id);
      queues := queues[c.id := c];
      shape := GroupShape(shape, se.id, c.id);
      se.myQ := c;
      AdoptedWired(c);
      AdoptedState(c);
      AdoptedBook(c);
    }

    lemma Unlinked(c: nat)
      requires Wired() && Tree(St()) && c !in queues
      ensures c !in shape.owned.Values && c !in shape.se
    {
    }

    twostate predicate Adopting(c: CfsRq)
      reads this, c, c.se
    {
      && c.se != null && old(HasEntity(c.se) && c.se.myQ == null && HasQueue(c.se.cfsRq))
      && old(c.id !in queues && c.id !in shape.owned.Values && c.id !in shape.se)
      && !c.throttled && c.hNrRunning == 0 && c.loadWeight == 0 && c.nrRunning == 0
      && queues == old(queues)[c.id := c] && shape == GroupShape(old(shape), c.se.id, c.id) && c.se.myQ == c
      && entities == old(entities) && nrRunning == old(nrRunning)
    }

    twostate lemma AdoptedWired(c: CfsRq)
      requires old(Named() && Wired()) && Adopting(c)
      requires forall e :: e in old(entities.Values) && e != c.se ==> e.myQ == old(e.myQ)
      ensures Named() && Wired()
    {
      AdoptedQueues(c);
      AdoptedEntities(c);
      AdoptedOwners(c);
      hide QueuesWired, EntitiesWired, OwnersWired;
    }

    twostate lemma AdoptedQueues(c: CfsRq)
      requires old(Named() && QueuesWired()) && Adopting(c)
      ensures QueuesWired()
    {
    }

    twostate lemma AdoptedEntities(c: CfsRq)
      requires old(Named() && EntitiesWired()) && Adopting(c)
      ensures EntitiesWired()
    {
    }

    twostate lemma AdoptedOwners(c: CfsRq)
      requires old(Named() && OwnersWired()) && Adopting(c)
      requires forall e :: e in old(entities.Values) && e != c.se ==> e.myQ == old(e.myQ)
      ensures OwnersWired()
    {
      forall i | i in entities
        ensures entities[i].myQ == null <==> i !in shape.owned
        ensures entities[i].myQ != null ==> HasQueue(entities[i].myQ) && i in shape.owned && shape.owned[i] == entities[i].myQ.id
      {
        if i == c.se.id {
          assert entities[i] == c.se;
        } else {
          assert entities[i] != c.se && entities[i].myQ == old(entities[i].myQ);
        }
      }
    }

    twostate lemma AdoptedState(c: CfsRq)
      requires old(Named() && Wired()) && Adopting(c)
      requires forall e :: e in old(entities.Values) ==> e.onRq == old(e.onRq)
      requires forall q :: q in old(queues.Values) ==> q.hNrRunning == old(q.hNrRunning) && q.throttled == old(q.throttled)
      ensures St() == WithGroup(old(St()), c.se.id, c.id)
    {
      assert Counters() == old(Counters())[c.id := 0];
      assert ThrottledQueues() == old(ThrottledQueues());
      assert OnRq() == old(OnRq());
    }

    twostate lemma AdoptedBook(c: CfsRq)
      requires old(Named() && Wired()) && Adopting(c)
      requires forall e :: e in old(entities.Values) ==> e.weight == old(e.weight)
      requires forall q :: q in old(queues.Values) ==> q.loadWeight == old(q.loadWeight) && q.nrRunning == old(q.nrRunning)
      ensures Bk() == old(Bk()).(load := old(Bk()).load[c.id := 0], nr := old(Bk()).nr[c.id := 0])
    {
      assert Loads() == old(Loads())[c.id := 0];
      assert Occupancy() == old(Occupancy())[c.id := 0];
      assert Weights() == old(Weights());
    }

    // ------------------------------------------------- one field at a time

    lemma Lookup(q: CfsRq)
      requires HasQueue(q)
      ensures q.id in St().h && St().h[q.id] == q.hNrRunning
      ensures q.id in Bk().load && Bk().load[q.id] == q.loadWeight
      ensures q.id in Bk().nr && Bk().nr[q.id] == q.nrRunning
      ensures q.id in St().throttled <==> q.throttled
    {
    }

    lemma LookupEntity(e: SchedEntity)
      requires Wired() && HasEntity(e)
      ensures e.id in Bk().weight && Bk().weight[e.id] == e.weight
      ensures e.id in St().onRq <==> e.onRq
      ensures St().shape == shape
      ensures e.id in shape.entities && e.id in shape.on && shape.on[e.id] == e.cfsRq.id && HasQueue(e.cfsRq) && e.parent == e.cfsRq.se
    {
      var f := entities[e.id];
      assert f.cfsRq == e.cfsRq && entities[e.id].cfsRq == f.cfsRq;
      assert HasQueue(entities[e.id].cfsRq);
      assert entities[e.id].parent == e.parent;
    }

    method SetCounter(q: CfsRq, v: int)
      requires Named() && HasQueue(q)
      modifies q`hNrRunning
      ensures St() == old(St()).(h := old(St()).h[q.id := v])
    {
      q.hNrRunning := v;
      assert Counters() == old(Counters())[q.id := v];
    }

    method SetThrottled(q: CfsRq, on: bool)
      requires Named() && HasQueue(q)
      modifies q`throttled
      ensures St() == (if on then Throttled(old(St()), q.id) else Unthrottled(old(St()), q.id)) && q.throttled == on
    {
      q.throttled := on;
      assert ThrottledQueues() == if on then old(ThrottledQueues()) + {q.id} else old(ThrottledQueues()) - {q.id};
    }

    method SetOnRq(e: SchedEntity, on: bool)
      requires Named() && HasEntity(e)
      modifies e`onRq
      ensures St() == if on then Inserted(old(St()), e.id) else Removed(old(St()), e.id)
    {
      e.onRq := on;
      assert OnRq() == if on then old(OnRq()) + {e.id} else old(OnRq()) - {e.id};
    }

    method SetWeight(e: SchedEntity, w: int)
      requires Named() && HasEntity(e)
      modifies e`weight
      ensures Bk() == old(Bk()).(weight := old(Bk()).weight[e.id := w]) && e.weight == w
    {
      e.weight := w;
      assert Weights() == old(Weights())[e.id := w];
    }

    method SetLoad(q: CfsRq, v: int)
      requires Named() && HasQueue(q)
      modifies q`loadWeight
      ensures Bk() == old(Bk()).(load := old(Bk()).load[q.id := v]) && q.loadWeight == v
    {
      q.loadWeight := v;
      assert Loads() == old(Loads())[q.id := v];
    }

    method SetOccupancy(q: CfsRq, v: int)
      requires Named() && HasQueue(q)
      modifies q`nrRunning
      ensures Bk() == old(Bk()).(nr := old(Bk()).nr[q.id := v]) && q.nrRunning == v
    {
      q.nrRunning := v;
      assert Occupancy() == old(Occupancy())[q.id := v];
    }

    /** cfs_rq->h_nr_running += delta. */
    method Raise(q: CfsRq, delta: int)
      requires Sound() && HasQueue(q)
      modifies q`hNrRunning
      ensures Sound() && q.id in old(St()).h && St() == Raised(old(St()), q.id, delta)
    {
      hide Tree, Balanced, Wired, Named, St, Bk;
      Lookup(q);
      RaisedKept(St(), q.id, delta, Bk());
      SetCounter(q, q.hNrRunning + delta);
    }

    /** account_entity_enqueue. */
    method Account(q: CfsRq, e: SchedEntity)
      requires Named() && Wired() && HasQueue(q) && HasEntity(e)
      modifies q`loadWeight, q`nrRunning
      ensures q.id in old(Bk()).load && q.id in old(Bk()).nr && e.id in old(Bk()).weight && Bk() == BookInserted(old(Bk()), e.id, q.id)
      ensures q.loadWeight == old(q.loadWeight) + e.weight && q.nrRunning == old(q.nrRunning) + 1
    {
      hide Named, Wired, St, Bk;
      Lookup(q);
      LookupEntity(e);
      SetLoad(q, q.loadWeight + e.weight);
      SetOccupancy(q, q.nrRunning + 1);
    }

    /** account_entity_dequeue. */
    method Disaccount(q: CfsRq, e: SchedEntity)
      requires Named() && Wired() && HasQueue(q) && HasEntity(e)
      modifies q`loadWeight, q`nrRunning
      ensures q.id in old(Bk()).load && q.id in old(Bk()).nr && e.id in old(Bk()).weight && Bk() == BookRemoved(old(Bk()), e.id, q.id)
      ensures q.loadWeight == old(q.loadWeight) - e.weight && q.nrRunning == old(q.nrRunning) - 1
    {
      hide Named, Wired, St, Bk;
      Lookup(q);
      LookupEntity(e);
      SetLoad(q, q.loadWeight - e.weight);
      SetOccupancy(q, q.nrRunning - 1);
    }

    /** account_entity_enqueue, __enqueue_entity and se->on_rq = 1. */
    method Insert(q: CfsRq, se: SchedEntity)
      requires Sound() && HasEntity(se) && !se.onRq && q == se.cfsRq
      modifies q`loadWeight, q`nrRunning, se`onRq
      ensures Sound() && St() == Inserted(old(St()), se.id)
    {
      hide Tree, Balanced, Wired, Named, St, Bk;
      LookupEntity(se);
      InsertedKept(St(), se.id, Bk());
      Account(q, se);
      SetOnRq(se, true);
    }

    /** reweight_entity. */
    method ReweightEntity(q: CfsRq, se: SchedEntity, weight: nat)
      requires Sound() && HasEntity(se) && q == se.cfsRq && weight >= 1
      modifies q`loadWeight, q`nrRunning, se`weight
      ensures Sound() && St() == old(St()) && se.weight == weight
      ensures q.loadWeight == old(q.loadWeight) + (if se.onRq then weight - old(se.weight) else 0) && q.nrRunning == old(q.nrRunning)
    {
      hide Tree, Balanced, Wired, Named, St, Bk;
      LookupEntity(se);
      ReweightedKept(St(), se.id, Bk(), weight);
      if se.onRq {
        Disaccount(q, se);
      }
      SetWeight(se, weight);
      if se.onRq {
        LookupEntity(se);
        Account(q, se);
      }
    }

    /** update_cfs_shares: a group entity outside throttled hierarchies gets its share of the group's weight. */
    method UpdateCfsShares(se: SchedEntity)
      requires Sound() && HasEntity(se)
      modifies se.cfsRq`loadWeight, se.cfsRq`nrRunning, se`weight
      ensures Sound() && St() == old(St())
    {
      var throttledHierarchy: bool := *;
      if se.myQ == null || throttledHierarchy {
        return;
      }
      var shares: nat :| shares >= MIN_SHARES;
      ReweightEntity(se.cfsRq, se, shares);
    }

    /** __dequeue_entity, se->on_rq = 0 and account_entity_dequeue. */
    method Remove(q: CfsRq, se: SchedEntity)
      requires Sound() && HasEntity(se) && se.onRq && q == se.cfsRq
      modifies q`loadWeight, q`nrRunning, se`onRq
      ensures Sound() && St() == Removed(old(St()), se.id)
    {
      hide Tree, Balanced, Wired, Named, St, Bk;
      LookupEntity(se);
      RemovedKept(St(), se.id, Bk());
      SetOnRq(se, false);
      Disaccount(q, se);
    }

    /** dequeue_entity. */
    method DequeueEntity(q: CfsRq, se: SchedEntity)
      requires Sound() && HasEntity(se) && se.onRq && q == se.cfsRq
      modifies q`loadWeight, q`nrRunning, q`runtimeRemaining, se`onRq, se`weight
      ensures Sound() && St() == Removed(old(St()), se.id)
    {
      hide Tree, Balanced, Wired, Named, St, Bk;
      Remove(q, se);
      ReturnCfsRqRuntime(q);
      UpdateCfsShares(se);
    }

    /** return_cfs_rq_runtime: an empty queue keeps no more than min_cfs_rq_runtime. */
    method ReturnCfsRqRuntime(q: CfsRq)
      modifies q`runtimeRemaining
      ensures q.runtimeRemaining
           == if q.runtimeEnabled && q.nrRunning == 0 then Min(old(q.runtimeRemaining), MIN_CFS_RQ_RUNTIME) else old(q.runtimeRemaining)
    {
      if q.runtimeEnabled && q.nrRunning == 0 && q.runtimeRemaining > MIN_CFS_RQ_RUNTIME {
        q.runtimeRemaining := MIN_CFS_RQ_RUNTIME;
      }
    }

    // ------------------------------------------------------- the walks

    ghost function Id(se: SchedEntity?): Option<nat> {
      if se == null then None else Some(se.id)
    }

    /** How far se is below the root. */
    ghost function Height(se: SchedEntity?): nat
      reads `shape
    {
      if se == null || se.cfsRq.id !in shape.depth then 0 else shape.depth[se.cfsRq.id] + 1
    }

    /** Following an entity's pointers is following the shape. */
    lemma Up(se: SchedEntity)
      requires Sound() && HasEntity(se)
      ensures se.id in shape.on && shape.on[se.id] == se.cfsRq.id && HasQueue(se.cfsRq) && se.cfsRq.id in St().h
      ensures Parent(St(), se.cfsRq.id) == Id(se.parent) && (se.parent != null ==> HasEntity(se.parent))
      ensures se.cfsRq.throttled <==> se.cfsRq.id in St().throttled
      ensures se.onRq <==> se.id in St().onRq
      ensures se.id in shape.entities && St().shape == shape
      ensures Layered(St()) ==> Height(se.parent) < Height(se)
    {
      LookupEntity(se);
      Lookup(se.cfsRq);
      assert queues[se.cfsRq.id].se == se.parent;
      if se.parent != null {
        LookupEntity(se.parent);
      }
    }

    lemma Own(q: CfsRq)
      requires Sound() && HasQueue(q)
      ensures St().shape == shape && q.id in shape.queues && q.id in St().h && St().h[q.id] == q.hNrRunning
      ensures q.throttled <==> q.id in St().throttled
      ensures q.throttled ==> q.se != null
      ensures q.se == null <==> q.id !in shape.se
      ensures q.se == null <==> q == root
      ensures q.se != null ==> HasEntity(q.se) && shape.se[q.id] == q.se.id && (q.se.onRq <==> q.se.id in St().onRq)
      ensures q.se != null ==> q.se.id in shape.owned && shape.owned[q.se.id] == q.id && q.id != shape.root
    {
      Lookup(q);
      assert queues[q.id].se == q.se;
      if q.se != null {
        LookupEntity(q.se);
      }
    }

    lemma Occupied(q: CfsRq)
      requires Sound() && HasQueue(q)
      ensures q.loadWeight == 0 <==> Queued(St(), q.id) == {}
      ensures q.nrRunning == |Queued(St(), q.id)|
    {
      Lookup(q);
      LoadIffOccupied(St(), Bk(), q.id);
    }

    lemma SameShape()
      requires Sound()
      ensures St().shape == shape && shape.root !in St().throttled
      ensures queues.Keys == shape.queues && entities.Keys == shape.entities
    {
    }

    method AddNrRunning(delta: int)
      requires Sound()
      modifies `nrRunning
      ensures Sound() && St() == old(St()).(total := old(St()).total + delta)
    {
      hide Tree, Balanced, Wired, Named, St, Bk;
      SameShape();
      StillKept(St(), St().(total := St().total + delta), Bk());
      BumpTotal(delta);
    }

    method BumpTotal(delta: int)
      modifies `nrRunning
      ensures St() == old(St()).(total := old(St()).total + delta)
    {
      nrRunning := nrRunning + delta;
    }

    method Mark(q: CfsRq, on: bool)
      requires Sound() && HasQueue(q) && q.se != null
      modifies q`throttled
      ensures Sound() && St() == (if on then Throttled(old(St()), q.id) else Unthrottled(old(St()), q.id)) && q.throttled == on
    {
      hide Tree, Balanced, Wired, Named, St, Bk;
      Own(q);
      SameShape();
      StillKept(St(), if on then Throttled(St(), q.id) else Unthrottled(St(), q.id), Bk());
      SetThrottled(q, on);
    }

    lemma DueIff(q: CfsRq)
      requires HasQueue(q)
      ensures q.id in Due() <==> q.runtimeEnabled && q.curr == null && q.runtimeRemaining <= 0
    {
    }

    /** account_cfs_rq_runtime, with nothing to charge: what the pool then gives is arbitrary. */
    method AccountCfsRqRuntime(q: CfsRq)
      requires Named() && HasQueue(q)
      modifies q`runtimeRemaining
      ensures Due() - {q.id} == old(Due()) - {q.id}
    {
      q.runtimeRemaining := *;
      assert forall i :: i in queues && i != q.id ==> queues[i] != q;
    }

    /** check_enqueue_throttle: a queue that wakes up without runtime left is throttled at once. */
    method CheckEnqueueThrottle(q: CfsRq)
      requires Sound() && HasQueue(q)
      requires q.se != null && q.se.onRq ==> q.throttled
      modifies queues.Values`loadWeight, queues.Values`nrRunning, queues.Values`hNrRunning, queues.Values`throttled
      modifies queues.Values`runtimeRemaining, entities.Values`onRq, entities.Values`weight, `nrRunning
      ensures Sound()
      ensures St() == old(St()) || (q != root && q.id !in old(St()).throttled && St() == Throttled(old(St()), q.id))
      ensures !old(q.throttled) ==> (q.throttled <==> q.runtimeEnabled && q.curr == null && q.runtimeRemaining <= 0)
      ensures Due() - {q.id} == old(Due()) - {q.id}
      ensures St() == if q.id !in old(St()).throttled && q.id in Due() then Throttled(old(St()), q.id) else old(St())
    {
      hide Tree, Balanced, Wired, Named, St, Bk, Valid, Due;
      Own(q);
      DueIff(q);
      if !q.runtimeEnabled || q.curr != null || q.throttled {
        return;
      }
      AccountCfsRqRuntime(q);
      DueIff(q);
      if q.runtimeRemaining <= 0 {
        ThrottleCfsRq(q);
      }
    }

    /** enqueue_entity. */
    method EnqueueEntity(q: CfsRq, se: SchedEntity)
      requires Sound() && HasEntity(se) && !se.onRq && q == se.cfsRq
      requires Tree(St()) && Ready(St(), se.id)
      modifies queues.Values`loadWeight, queues.Values`nrRunning, queues.Values`hNrRunning, queues.Values`throttled
      modifies queues.Values`runtimeRemaining, entities.Values`onRq, entities.Values`weight, `nrRunning
      ensures Sound() && se.id in shape.on
      ensures Enqueued(old(St()), se.id, St()) && EnqueuedDue(old(St()), se.id, St(), Due()) && Due() - {q.id} == old(Due()) - {q.id}
      ensures old(q.nrRunning == 0 && !q.throttled) ==> (q.throttled <==> q.runtimeEnabled && q.curr == null && q.runtimeRemaining <= 0)
      ensures old(q.nrRunning != 0 || q.throttled) ==> q.throttled == old(q.throttled)
    {
      hide Sum, HSum, Tree, Layered, Balanced, Wired, Named, St, Bk, Due, Queued, Counted, LinkedBut, Linked;
      Up(se);
      Own(q);
      Occupied(q);
      ghost var s := St();
      UpdateCfsShares(se);
      Insert(q, se);
      Own(q);
      Occupied(q);
      OneMore(s, se.id);
      if q.nrRunning == 1 {
        CheckEnqueueThrottle(q);
        Own(q);
      }
    }

    /**
     * One level of a walk up that queues entities. The queue is throttled if it
     * wakes up due for it; s is the state at the start of the walk.
     */
    method EnqueueLevel(se: SchedEntity, ghost s: State, ghost delta: int)
      requires Sound() && HasEntity(se) && !se.onRq && PendingUp(St(), Some(se.id), delta)
      requires OnCourse(s, St(), Due(), Height(se))
      modifies queues.Values`loadWeight, queues.Values`nrRunning, queues.Values`hNrRunning, queues.Values`throttled
      modifies queues.Values`runtimeRemaining, entities.Values`onRq, entities.Values`weight, `nrRunning
      ensures Sound() && Raising(St(), se.id, delta)
      ensures Runnable(St()) == Runnable(old(St())) + if se.id in shape.owned then {} else {se.id}
      ensures old(St()).throttled <= St().throttled <= old(St()).throttled + {se.cfsRq.id}
      ensures OnCourse(s, St(), Due(), Height(se.parent)) && Height(se.parent) < Height(se)
    {
      hide Sum, HSum, Tree, Balanced, Wired, Named, St, Bk, Due;
      hide Queued, Counted, LinkedBut, Linked, PendingUp, Raising, RaisingFrom, Ready, OnCourse, EnqueuedDue, ThrottledAsDue;
      Up(se);
      ghost var t, due := St(), Due();
      PrepareRaise(t, se.id, delta, true);
      HeightOf(se);
      RunnableSteps(t, se.id);
      EnqueueEntity(se.cfsRq, se);
      EnterRaising(t, se.id, delta, St());
      CourseStep(s, t, due, se.id, St(), Due());
      SameCourse(s, St(), Due(), shape.depth[se.cfsRq.id], St(), Height(se.parent));
    }

    /** One level of a walk up that raises the counts. */
    method RaiseLevel(se: SchedEntity, delta: int, ghost enqueue: bool)
      requires Sound() && HasEntity(se)
      requires if enqueue then Raising(St(), se.id, delta) else RaisingFrom(St(), Some(se.id), delta)
      modifies se.cfsRq`hNrRunning
      ensures Sound() && St().onRq == old(St()).onRq && St().throttled == old(St()).throttled && St().shape == old(St()).shape
      ensures Runnable(St()) == Runnable(old(St())) && Height(se.parent) < Height(se)
      ensures if se.cfsRq.throttled then Valid(St())
              else if enqueue then PendingUp(St(), Id(se.parent), delta) else RaisingFrom(St(), Id(se.parent), delta)
    {
      hide Sum, HSum, Balanced, Wired, Named, St, Bk, Due;
      hide Queued, Counted, LinkedBut, Linked, Valid, ValidBut, PendingUp, Raising, RaisingFrom, Ready;
      ClimbStep(St(), se.id, delta, enqueue);
      RaisingTree(St(), se.id, delta, enqueue);
      Up(se);
      Raise(se.cfsRq, delta);
    }

    lemma HeightOf(se: SchedEntity)
      requires Sound() && HasEntity(se) && Tree(St()) && Layered(St())
      ensures se.cfsRq.id in shape.depth && Height(se) == shape.depth[se.cfsRq.id] + 1 > Height(se.parent)
    {
      Up(se);
    }

    /** throttle_cfs_rq. */
    method ThrottleCfsRq(q: CfsRq)
      requires Sound() && HasQueue(q) && q.se != null && !q.throttled
      requires q.se.onRq ==> Valid(St())
      modifies queues.Values`loadWeight, queues.Values`nrRunning, queues.Values`hNrRunning, queues.Values`throttled
      modifies queues.Values`runtimeRemaining, entities.Values`onRq, entities.Values`weight, `nrRunning
      ensures Sound()
      ensures !old(q.se.onRq) ==> St() == Throttled(old(St()), q.id) && q.runtimeRemaining == old(q.runtimeRemaining) && Due() == old(Due())
      ensures q.throttled
      ensures Valid(old(St())) ==> Valid(St()) && Runnable(St()) == Runnable(old(St())) && St().throttled == old(St()).throttled + {q.id}
    {
      hide Sum, HSum, Tree, Layered, Balanced, Wired, Named, St, Bk, Due;
      hide Queued, Counted, LinkedBut, Linked, Valid, ValidBut, Going, Lowering, LoweringFrom, PendingDown;
      Own(q);
      var se: SchedEntity?, delta, dequeue := q.se, q.hNrRunning, true;
      ghost var s, due, x := St(), Due(), Some(q.se.id);
      if q.se.onRq {
        StartDown(s, q.se.id);
      }
      while se != null
        invariant Sound() && (se != null ==> HasEntity(se) && se.id in shape.owned)
        invariant St().throttled == s.throttled && St().shape == s.shape && Runnable(St()) == Runnable(s)
        invariant if q.se.id in s.onRq then Ascending(St(), Id(se), delta, x, dequeue) && (q.se.id in St().onRq ==> se == q.se && dequeue)
                  else se == q.se && St() == s && q.runtimeRemaining == old(q.runtimeRemaining) && Due() == due
        decreases Height(se)
      {
        Up(se);
        if !se.onRq {
          break;
        }
        Own(se.cfsRq);
        ghost var t := St();
        AscendStep(t, se.id, delta, x, dequeue);
        RunnableSteps(t, se.id);
        if dequeue {
          DequeueEntity(se.cfsRq, se);
        }
        Raise(se.cfsRq, -delta);
        Occupied(se.cfsRq);
        if se.cfsRq.loadWeight != 0 {
          dequeue := false;
        }
        se := se.parent;
      }
      if se == null {
        AscendDone(St(), delta, x, dequeue);
        FinishDown(St(), delta, x);
        AddNrRunning(-delta);
      }
      if Valid(s) {
        ValidWeaken(s, x);
        ThrottleSettles(St(), q.id);
      }
      Mark(q, true);
    }

    /** check_cfs_rq_runtime, when the running entity is put back. */
    method CheckCfsRqRuntime(q: CfsRq) returns (throttled: bool)
      requires Sound() && Valid(St()) && HasQueue(q)
      modifies queues.Values`loadWeight, queues.Values`nrRunning, queues.Values`hNrRunning, queues.Values`throttled
      modifies queues.Values`runtimeRemaining, entities.Values`onRq, entities.Values`weight, `nrRunning
      ensures Sound() && Valid(St()) && Runnable(St()) == Runnable(old(St()))
      ensures throttled <==> q.runtimeEnabled && old(q.runtimeRemaining) <= 0
      ensures St().throttled == old(St()).throttled + if throttled then {q.id} else {}
    {
      hide Tree, Balanced, Wired, Named, St, Bk, Valid;
      Own(q);
      if !q.runtimeEnabled || q.runtimeRemaining > 0 {
        return false;
      }
      if q.throttled {
        return true;
      }
      ThrottleCfsRq(q);
      return true;
    }

    /** unthrottle_cfs_rq: waking the entities above may in turn throttle the queues they wake on. */
    method UnthrottleCfsRq(q: CfsRq)
      requires Sound() && Valid(St()) && HasQueue(q) && q.throttled
      modifies queues.Values`loadWeight, queues.Values`nrRunning, queues.Values`hNrRunning, queues.Values`throttled
      modifies queues.Values`runtimeRemaining, entities.Values`onRq, entities.Values`weight, `nrRunning
      ensures Sound() && Valid(St()) && Runnable(St()) == Runnable(old(St()))
      ensures q.id !in St().throttled && old(St()).throttled - {q.id} <= St().throttled
      ensures ThrottledAsDue(Unthrottled(old(St()), q.id), St(), Due())
    {
      hide Sum, HSum, Tree, Layered, Balanced, Wired, Named, St, Bk, Due, OnCourse, ThrottledAsDue;
      hide Queued, Counted, LinkedBut, Linked, Valid, ValidBut, PendingUp, Raising, RaisingFrom, Ready;
      Own(q);
      Occupied(q);
      ghost var s := St();
      Mark(q, false);
      UnthrottleOpens(s, q.id);
      Occupied(q);
      ghost var open := St();
      CourseStarts(open, Due(), Height(q.se));
      if q.loadWeight == 0 {
        CourseEnds(open, St(), Due(), Height(q.se));
        StaysOpen(s, q.id, St(), Due());
        return;
      }
      WakeAbove(q, open);
      StaysOpen(s, q.id, St(), Due());
    }

    /** The loop of unthrottle_cfs_rq, with its end. */
    method WakeAbove(q: CfsRq, ghost open: State)
      requires Sound() && HasQueue(q) && q.se != null && PendingUp(St(), Some(q.se.id), q.hNrRunning)
      requires St() == open && OnCourse(open, open, Due(), Height(q.se))
      modifies queues.Values`loadWeight, queues.Values`nrRunning, queues.Values`hNrRunning, queues.Values`throttled
      modifies queues.Values`runtimeRemaining, entities.Values`onRq, entities.Values`weight, `nrRunning
      ensures Sound() && Valid(St()) && Runnable(St()) == Runnable(open) && ThrottledAsDue(open, St(), Due())
    {
      hide Sum, HSum, Tree, Layered, Balanced, Wired, Named, St, Bk, Due, OnCourse, ThrottledAsDue;
      hide Queued, Counted, LinkedBut, Linked, Valid, ValidBut, PendingUp, Raising, RaisingFrom, Ready;
      Own(q);
      var se: SchedEntity?, delta, enqueue := q.se, q.hNrRunning, true;
      while se != null
        invariant Sound() && (se != null ==> HasEntity(se) && se.id in shape.owned)
        invariant St().shape == open.shape && Runnable(St()) == Runnable(open) && OnCourse(open, St(), Due(), Height(se))
        invariant if enqueue then PendingUp(St(), Id(se), delta) else RaisingFrom(St(), Id(se), delta)
        decreases Height(se)
      {
        Up(se);
        Own(se.cfsRq);
        PrepareRaise(St(), se.id, delta, enqueue);
        if se.onRq {
          enqueue := false;
        }
        ghost var height := Height(se);
        if enqueue {
          EnqueueLevel(se, open, delta);
          height := Height(se.parent);
        }
        ghost var t := St();
        RaiseLevel(se, delta, enqueue);
        SameCourse(open, t, Due(), height, St(), Height(se.parent));
        if se.cfsRq.throttled {
          CourseEnds(open, St(), Due(), Height(se.parent));
          break;
        }
        Up(se);
        se := se.parent;
      }
      if se == null {
        FinishRaise(St(), delta, enqueue);
        ghost var t := St();
        AddNrRunning(delta);
        SameCourse(open, t, Due(), 0, St(), 0);
        CourseEnds(open, St(), Due(), 0);
      }
    }

    /** enqueue_task_fair. */
    method EnqueueTaskFair(p: SchedEntity)
      requires Sound() && Valid(St()) && HasEntity(p) && p.myQ == null && !p.onRq
      modifies queues.Values`loadWeight, queues.Values`nrRunning, queues.Values`hNrRunning, queues.Values`throttled
      modifies queues.Values`runtimeRemaining, entities.Values`onRq, entities.Values`weight, `nrRunning
      ensures Sound() && Valid(St()) && Runnable(St()) == Runnable(old(St())) + {p.id}
      ensures ThrottledAsDue(old(St()), St(), Due())
    {
      hide Sum, HSum, Tree, Layered, Balanced, Wired, Named, St, Bk, Due, OnCourse, ThrottledAsDue;
      hide Queued, Counted, LinkedBut, Linked, Valid, ValidBut, PendingUp, Raising, RaisingFrom, Ready, Runnable;
      ghost var s := St();
      var se := QueueUp(p);
      ghost var t := St();
      CountUp(se);
      SameRunnable(t, St());
      SameCourse(s, t, Due(), 0, St(), 0);
      CourseEnds(s, St(), Due(), 0);
    }

    /** The first loop of enqueue_task_fair: it queues p, and what p wakes up above, and stops at se. */
    method QueueUp(p: SchedEntity) returns (se: SchedEntity?)
      requires Sound() && Valid(St()) && HasEntity(p) && p.myQ == null && !p.onRq
      modifies queues.Values`loadWeight, queues.Values`nrRunning, queues.Values`hNrRunning, queues.Values`throttled
      modifies queues.Values`runtimeRemaining, entities.Values`onRq, entities.Values`weight, `nrRunning
      ensures Sound() && (se != null ==> HasEntity(se)) && RaisingFrom(St(), Id(se), 1)
      ensures Runnable(St()) == Runnable(old(St())) + {p.id} && OnCourse(old(St()), St(), Due(), 0)
    {
      hide Sum, HSum, Tree, Layered, Balanced, Wired, Named, St, Bk, Due, OnCourse;
      hide Queued, Counted, LinkedBut, Linked, Valid, ValidBut, PendingUp, Raising, RaisingFrom, Ready, Runnable, Height, HasQueue;
      Up(p);
      NotOwner(p);
      ghost var s := St();
      StartUp(s, p.id);
      CourseStarts(s, Due(), Height(p));
      se := p;
      while se != null
        invariant Sound() && (se != null ==> HasEntity(se) && (se == p || se.id in shape.owned))
        invariant St().shape == s.shape && OnCourse(s, St(), Due(), Height(se))
        invariant if se == p then St() == s else Runnable(St()) == Runnable(s) + {p.id}
        invariant PendingUp(St(), Id(se), 1)
        decreases Height(se)
      {
        Up(se);
        Own(se.cfsRq);
        if se.onRq {
          PrepareRaise(St(), se.id, 1, true);
          SameCourse(s, St(), Due(), Height(se), St(), 0);
          break;
        }
        EnqueueLevel(se, s, 1);
        Up(se);
        ghost var t := St();
        if se.cfsRq.throttled {
          RaisingThrottled(t, se.id, 1);
          SameCourse(s, t, Due(), Height(se.parent), t, 0);
          break;
        }
        RaiseLevel(se, 1, true);
        SameCourse(s, t, Due(), Height(se.parent), St(), Height(se.parent));
        se := se.parent;
      }
      if se == null {
        RaisingOver(St(), 1);
        SameCourse(s, St(), Due(), Height(se), St(), 0);
      }
    }

    /** The second loop of enqueue_task_fair, from where the first one stopped. */
    method CountUp(start: SchedEntity?)
      requires Sound() && (start != null ==> HasEntity(start)) && RaisingFrom(St(), Id(start), 1)
      modifies queues.Values`loadWeight, queues.Values`nrRunning, queues.Values`hNrRunning
      modifies entities.Values`weight, `nrRunning
      ensures Sound() && Valid(St()) && St().shape == old(St()).shape && St().onRq == old(St()).onRq && St().throttled == old(St()).throttled
    {
      hide Sum, HSum, Tree, Layered, Balanced, Wired, Named, St, Bk;
      hide Queued, Counted, LinkedBut, Linked, Valid, ValidBut, PendingUp, Raising, RaisingFrom;
      var se := start;
      ghost var s := St();
      while se != null
        invariant Sound() && (se != null ==> HasEntity(se))
        invariant s.throttled == St().throttled && s.shape == St().shape && s.onRq == St().onRq
        invariant RaisingFrom(St(), Id(se), 1)
        decreases Height(se)
      {
        Up(se);
        PrepareRaise(St(), se.id, 1, false);
        RaiseOn(St(), se.id, 1);
        Raise(se.cfsRq, 1);
        if se.cfsRq.throttled {
          break;
        }
        UpdateCfsShares(se);
        se := se.parent;
      }
      if se == null {
        FinishRaise(St(), 1, false);
        AddNrRunning(1);
      }
    }

    /** dequeue_task_fair. */
    method DequeueTaskFair(p: SchedEntity)
      requires Sound() && Valid(St()) && HasEntity(p) && p.myQ == null && p.onRq
      modifies queues.Values`loadWeight, queues.Values`nrRunning, queues.Values`hNrRunning, queues.Values`throttled
      modifies queues.Values`runtimeRemaining, entities.Values`onRq, entities.Values`weight, `nrRunning
      ensures Sound() && Valid(St()) && Runnable(St()) == Runnable(old(St())) - {p.id}
      ensures St().throttled == old(St()).throttled
    {
      hide Sum, HSum, Tree, Layered, Balanced, Wired, Named, St, Bk;
      hide Queued, Counted, LinkedBut, Linked, Valid, ValidBut, Going, Lowering, LoweringFrom, PendingDown;
      Up(p);
      NotOwner(p);
      ghost var s := St();
      StartDown(s, p.id);
      var se: SchedEntity? := p;
      while se != null
        invariant Sound() && (se != null ==> HasEntity(se) && (se == p || se.id in shape.owned))
        invariant s.throttled == St().throttled && St().shape == s.shape
        invariant if se == p then St() == s else Runnable(St()) == Runnable(s) - {p.id}
        invariant Going(St(), Id(se), 1, None)
        decreases Height(se)
      {
        Up(se);
        Own(se.cfsRq);
        ghost var t := St();
        Leave(t, se.id, 1, None);
        RunnableSteps(t, se.id);
        DequeueEntity(se.cfsRq, se);
        LowerOn(St(), se.id, 1, None);
        if se.cfsRq.throttled {
          LoweringThrottled(St(), se.id, 1, None);
          break;
        }
        Raise(se.cfsRq, -1);
        Occupied(se.cfsRq);
        if se.cfsRq.loadWeight != 0 {
          se := se.parent;
          break;
        }
        se := se.parent;
      }
      if se == null {
        GoingOver(St(), 1, None);
      }
      CountDown(se);
    }

    /** The second loop of dequeue_task_fair, from where the first one stopped. */
    method CountDown(start: SchedEntity?)
      requires Sound() && (start != null ==> HasEntity(start)) && LoweringFrom(St(), Id(start), 1, None)
      modifies queues.Values`loadWeight, queues.Values`nrRunning, queues.Values`hNrRunning, queues.Values`throttled
      modifies queues.Values`runtimeRemaining, entities.Values`onRq, entities.Values`weight, `nrRunning
      ensures Sound() && Valid(St()) && Runnable(St()) == Runnable(old(St())) && St().throttled == old(St()).throttled
    {
      hide Sum, HSum, Tree, Layered, Balanced, Wired, Named, St;
      hide Bk, Queued, Counted, LinkedBut, Linked, ValidBut, Lowering, LoweringFrom, PendingDown;
      var se := start;
      ghost var s := St();
      while se != null
        invariant Sound() && (se != null ==> HasEntity(se))
        invariant s.throttled == St().throttled && Runnable(St()) == Runnable(s)
        invariant LoweringFrom(St(), Id(se), 1, None)
        decreases Height(se)
      {
        Up(se);
        StayOn(St(), se.id, 1, None);
        Raise(se.cfsRq, -1);
        if se.cfsRq.throttled {
          break;
        }
        UpdateCfsShares(se);
        se := se.parent;
      }
      if se == null {
        AscendDone(St(), 1, None, false);
        FinishDown(St(), 1, None);
        AddNrRunning(-1);
      }
    }

    lemma NotOwner(p: SchedEntity)
      requires Sound() && HasEntity(p)
      ensures p.myQ == null <==> p.id !in shape.owned
    {
      assert entities[p.id].myQ == p.myQ;
    }
  }

  ghost function EmptyState(): State {
    State(Shape(0, {0}, {}, map[], map[], map[], map[0 := 0]), {}, map[0 := 0], {}, 0)
  }

  ghost function EmptyBook(): Book {
    Book(map[], map[0 := 0], map[0 := 0])
  }

  lemma EmptyValid()
    ensures Valid(EmptyState()) && Tree(EmptyState()) && Balanced(EmptyState(), EmptyBook())
  {
    assert Queued(EmptyState(), 0) == {};
  }

  lemma RaisedKept(s: State, q: nat, delta: int, b: Book)
    requires Tree(s) && Balanced(s, b) && q in s.h
    ensures Tree(Raised(s, q, delta)) && Balanced(Raised(s, q, delta), b)
  {
    TreeKept(s, Raised(s, q, delta));
    SameQueued(s, Raised(s, q, delta), b);
  }

  lemma InsertedKept(s: State, e: nat, b: Book)
    requires Tree(s) && Balanced(s, b) && e in s.shape.entities && e !in s.onRq
    ensures e in s.shape.on && s.shape.on[e] in b.load && s.shape.on[e] in b.nr && e in b.weight
    ensures Tree(Inserted(s, e)) && Balanced(Inserted(s, e), BookInserted(b, e, s.shape.on[e]))
  {
    TreeKept(s, Inserted(s, e));
    InsertedBalanced(s, b, e);
  }

  lemma ReweightedKept(s: State, e: nat, b: Book, w: nat)
    requires Tree(s) && Balanced(s, b) && e in s.shape.entities && w >= 1
    ensures e in s.shape.on && s.shape.on[e] in b.load && s.shape.on[e] in b.nr && e in b.weight
    ensures Balanced(s, Reweighed(b, e, s.shape.on[e], e in s.onRq, w))
  {
    hide Sum, Queued;
    ReweightedBalanced(s, b, e, w);
    ReweighedAsOne(b, e, s.shape.on[e], e in s.onRq, w);
  }

  lemma ReweighedAsOne(b: Book, e: nat, q: nat, queued: bool, w: nat)
    requires e in b.weight && q in b.load && q in b.nr
    ensures Reweighed(b, e, q, queued, w) == BookReweighted(b, e, q, queued, w)
  {
    assert b.nr[q := b.nr[q] - 1][q := b.nr[q]] == b.nr;
    var l := b.load[q] - b.weight[e];
    assert b.load[q := l][q := l + w] == b.load[q := l + w];
  }

  /** What reweight_entity does to the bookkeeping: take the old weight off, set the new one, put it on. */
  ghost function Reweighed(b: Book, e: nat, q: nat, queued: bool, w: nat): Book
    requires e in b.weight && q in b.load && q in b.nr
  {
    var c := if queued then BookRemoved(b, e, q) else b;
    var d := c.(weight := c.weight[e := w]);
    if queued then BookInserted(d, e, q) else d
  }

  lemma RemovedKept(s: State, e: nat, b: Book)
    requires Tree(s) && Balanced(s, b) && e in s.onRq
    ensures e in s.shape.on && s.shape.on[e] in b.load && s.shape.on[e] in b.nr && e in b.weight
    ensures Tree(Removed(s, e)) && Balanced(Removed(s, e), BookRemoved(b, e, s.shape.on[e]))
  {
    TreeKept(s, Removed(s, e));
    RemovedBalanced(s, b, e);
  }

  lemma OneMore(s: State, e: nat)
    requires e in s.shape.on && e !in s.onRq
    ensures var q := s.shape.on[e];
            |Queued(Inserted(s, e), q)| == |Queued(s, q)| + 1 && (Queued(s, q) == {} <==> |Queued(s, q)| == 0)
  {
    QueuedInserted(s, e, s.shape.on[e]);
  }

  /** Nothing that is derived depends on the total or on which queues are throttled. */
  lemma StillKept(s: State, t: State, b: Book)
    requires Tree(s) && Balanced(s, b) && t.shape == s.shape && t.onRq == s.onRq && t.h == s.h && s.shape.root !in t.throttled
    ensures Tree(t) && Balanced(t, b)
  {
    TreeKept(s, t);
    SameQueued(s, t, b);
  }
}
