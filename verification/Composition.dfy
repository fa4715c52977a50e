// The whole service: interleaved calls and outbox workers on one database. Seen from the calls it is
// the interleaved machine, and seen from the workers it is the delivery machine.
module Composition {
  import opened Wrappers
  import opened Uuid
  import opened Model
  import opened Engine
  import opened Books
  import Calls = Interleaving
  import Delivery = Outbox
  import opened Isolation
  import opened Serial
  import opened Stream
  import Runs

  datatype Site = Site(
    world: Calls.World, stream: seq<Delivery.Entry>, workers: seq<Delivery.Worker>,
    failedMarks: multiset<nat>, lostReplies: multiset<nat>, recorded: multiset<nat>)

  datatype Event = ByCall(call: Calls.Event) | ByWorker(delivery: Delivery.Event)

  // What the workers see.
  function View(s: Site): Delivery.System
  {
    Delivery.System(s.world.db, s.stream, s.workers, s.failedMarks, s.lostReplies, s.recorded)
  }

  // Only workers deliver, and workers do nothing else.
  predicate Enabled(s: Site, event: Event)
  {
    match event
    case ByCall(call) => Calls.Enabled(s.world, call) && (call.Other? ==> !Delivery.Delivery(call.op))
    case ByWorker(delivery) => !delivery.Other? && Delivery.Enabled(View(s), delivery)
  }

  // What a worker writes to the database.
  function Written(s: Delivery.System, event: Delivery.Event): Option<DbOp>
    requires Delivery.Enabled(s, event)
  {
    match event
    case Mark(w, ok) => if ok then Some(MarkPublished(s.workers[w].batch[s.workers[w].at])) else None
    case Record(w, ok) =>
      if ok then Some(RecordFailure(s.workers[w].batch[s.workers[w].at], s.workers[w].phase.message)) else None
    case _ => None
  }

  function Next(s: Site, event: Event, batchSize: nat): Site
    requires Enabled(s, event)
  {
    match event
    case ByCall(call) => s.(world := Calls.Next(s.world, call, Unbounded))
    case ByWorker(delivery) =>
      var seen := Delivery.Next(View(s), delivery, batchSize);
      var world := match Written(View(s), delivery)
        case Some(op) => Calls.Next(s.world, Calls.Other(op), Unbounded)
        case None => s.world;
      Site(world, seen.stream, seen.workers, seen.failedMarks, seen.lostReplies, seen.recorded)
  }

  function Begin(tasks: seq<Calls.Task>, workers: nat): Site
  {
    Site(Calls.Begin(SEEDED, tasks), [], seq(workers, _ => Delivery.Idle), multiset{}, multiset{}, multiset{})
  }

  function Working(batchSize: nat): (Site, Event, Site) -> bool
  {
    (s, event, after) => Enabled(s, event) && after == Next(s, event, batchSize)
  }

  // The tasks arrive, and the workers start, at the seeded database; wallets are opened on the way.
  ghost predicate Reaches(tasks: seq<Calls.Task>, workers: nat, events: seq<Event>, s: Site, batchSize: nat)
  {
    Calls.GoodTasks(SEEDED, tasks) && Runs.Leads(Working(batchSize), Begin(tasks, workers), events, s)
  }

  // ---------- One event ----------

  // For the calls, a worker's write is one of another writer; anything else it does they do not see.
  lemma SeenByCalls(s: Site, event: Event, batchSize: nat) returns (seen: seq<Calls.Event>)
    requires Enabled(s, event)
    ensures Runs.Leads(Calls.Moving(Unbounded), s.world, seen, Next(s, event, batchSize).world)
  {
    hide Runs.Leads, Step, Delivery.Next, Delivery.Current;
    var after := Next(s, event, batchSize).world;
    Runs.Stay(Calls.Moving(Unbounded), s.world);
    seen := [];
    if event.ByCall? {
      hide Calls.Next, Calls.Enabled;
      Runs.GoOn(Calls.Moving(Unbounded), s.world, [], s.world, event.call, after);
      seen := [] + [event.call];
    } else if Written(View(s), event.delivery).Some? {
      var op := Written(View(s), event.delivery).value;
      assert Calls.Enabled(s.world, Calls.Other(op)) && after == Calls.Next(s.world, Calls.Other(op), Unbounded);
      hide Calls.Next, Calls.Enabled;
      Runs.GoOn(Calls.Moving(Unbounded), s.world, [], s.world, Calls.Other(op), after);
      seen := [] + [Calls.Other(op)];
    }
  }

  // For the workers, a commit is one writer's turn, and the rest of a call they do not see.
  lemma CallSeenByWorkers(s: Site, call: Calls.Event, batchSize: nat) returns (seen: Option<Delivery.Event>)
    requires Ordered(SEEDED, s.world, Unbounded) && Enabled(s, ByCall(call))
    ensures var after := View(Next(s, ByCall(call), batchSize));
            match seen
            case Some(event) => Delivery.Enabled(View(s), event) && after == Delivery.Next(View(s), event, batchSize)
            case None => after == View(s)
  {
    hide Ordered, Step, InFlight, Legal;
    match call
    case Advance(i) =>
      OrderedParts(SEEDED, s.world, i, Unbounded);
      var p := s.world.procs[i];
      if Calls.Commits(p, Unbounded) {
        CommitShape(s.world, i, Unbounded);
        LegalNow(s.world.db, p);
        seen := Some(Delivery.Other(Money(p.task.call)));
      } else {
        seen := None;
      }
    case Fault(i) => seen := None;
    case Other(op) => seen := Some(Delivery.Other(op)); WriterIsLegal(s.world.db, op);
    case Expire(id) => seen := None;
  }

  lemma WriterIsLegal(db: Db, op: DbOp)
    requires !op.Money?
    ensures Legal(db, op)
  {
  }

  // What a worker does the delivery machine does.
  lemma WorkerSeen(s: Site, delivery: Delivery.Event, batchSize: nat)
    requires Enabled(s, ByWorker(delivery))
    ensures View(Next(s, ByWorker(delivery), batchSize)) == Delivery.Next(View(s), delivery, batchSize)
  {
    hide Step, Delivery.EntryOf, Delivery.FetchPending;
  }

  // ---------- Runs ----------

  // A run of the whole is a run of the interleaved calls, with the deliveries among its other writers ...
  lemma {:induction false} RunOfCalls(tasks: seq<Calls.Task>, workers: nat, events: seq<Event>, s: Site, batchSize: nat)
      returns (calls: seq<Calls.Event>)
    requires Reaches(tasks, workers, events, s, batchSize)
    ensures Calls.Reaches(SEEDED, tasks, calls, s.world, Unbounded)
    decreases |events|
  {
    hide Runs.Leads, Enabled, Next, Calls.GoodTasks, Calls.Begin;
    if events == [] {
      Runs.Nowhere(Working(batchSize), Begin(tasks, workers), events, s);
      Runs.Stay(Calls.Moving(Unbounded), s.world);
      calls := [];
    } else {
      var mid := Runs.GoBack(Working(batchSize), Begin(tasks, workers), events, s);
      var earlier := RunOfCalls(tasks, workers, events[..|events| - 1], mid, batchSize);
      var seen := SeenByCalls(mid, events[|events| - 1], batchSize);
      Runs.Join(Calls.Moving(Unbounded), Calls.Begin(SEEDED, tasks), earlier, mid.world, seen, s.world);
      calls := earlier + seen;
    }
  }

  // ... and a run of the workers, with the commits among its other writers.
  lemma {:induction false} RunOfWorkers(tasks: seq<Calls.Task>, workers: nat, events: seq<Event>, s: Site,
      batchSize: nat)
      returns (deliveries: seq<Delivery.Event>)
    requires Reaches(tasks, workers, events, s, batchSize)
    ensures Delivery.Reaches(workers, deliveries, View(s), batchSize)
    decreases |events|
  {
    hide Runs.Leads, Enabled, Next, Calls.GoodTasks, Delivery.Next, Delivery.Enabled;
    var start := Delivery.Begin(workers);
    if events == [] {
      Runs.Nowhere(Working(batchSize), Begin(tasks, workers), events, s);
      Runs.Stay(Delivery.Working(batchSize), start);
      assert View(s) == start;
      deliveries := [];
    } else {
      var mid := Runs.GoBack(Working(batchSize), Begin(tasks, workers), events, s);
      var earlier, last := events[..|events| - 1], events[|events| - 1];
      deliveries := RunOfWorkers(tasks, workers, earlier, mid, batchSize);
      var seen: Option<Delivery.Event>;
      if last.ByCall? {
        var calls := RunOfCalls(tasks, workers, earlier, mid, batchSize);
        ReachedOrdered(SEEDED, tasks, calls, mid.world, Unbounded);
        seen := CallSeenByWorkers(mid, last.call, batchSize);
      } else {
        WorkerIsEnabled(mid, last.delivery);
        WorkerSeen(mid, last.delivery, batchSize);
        seen := Some(last.delivery);
      }
      if seen.Some? {
        Runs.GoOn(Delivery.Working(batchSize), start, deliveries, View(mid), seen.value, View(s));
        deliveries := deliveries + [seen.value];
      }
    }
  }

  lemma WorkerIsEnabled(s: Site, delivery: Delivery.Event)
    requires Enabled(s, ByWorker(delivery))
    ensures Delivery.Enabled(View(s), delivery)
  {
  }

  // ---------- What carries over ----------

  // With interleaved calls, any number of workers and any failures of either: an event marked published
  // is in the stream, the stream holds nothing but events, and the books are sound.
  lemma AtLeastOnceConcurrently(tasks: seq<Calls.Task>, workers: nat, events: seq<Event>, s: Site, batchSize: nat)
    requires Reaches(tasks, workers, events, s, batchSize)
    ensures Delivery.Faithful(View(s)) && Sound(s.world.db)
  {
    hide Reaches, Delivery.Reaches, Delivery.Faithful, Sound;
    var deliveries := RunOfWorkers(tasks, workers, events, s, batchSize);
    Delivery.AtLeastOnce(workers, deliveries, View(s), batchSize);
  }

  // ... and when no event is left unpublished, the stream rebuilds every stored balance.
  lemma StreamRebuildsConcurrently(tasks: seq<Calls.Task>, workers: nat, events: seq<Event>, s: Site, batchSize: nat,
      wallet: Id)
    requires Reaches(tasks, workers, events, s, batchSize) && wallet in s.world.db.wallets
    requires forall i | 0 <= i < |s.world.db.outbox| :: s.world.db.outbox[i].status == OutboxPublished
    ensures Held(ConsumeAll(s.stream).balances, Uuid.Text(wallet)) == s.world.db.wallets[wallet].balance
  {
    hide Reaches, Delivery.Reaches, ConsumeAll, Held, Text;
    var deliveries := RunOfWorkers(tasks, workers, events, s, batchSize);
    StreamRebuildsBalances(workers, deliveries, View(s), batchSize, wallet);
  }
}
