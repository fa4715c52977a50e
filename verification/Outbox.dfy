// The outbox worker: fetch a batch, publish each event to the stream, mark it or record the failure.
// Any number of workers run at once, and anything they call may fail.
module Outbox {
  import opened Wrappers
  import opened Model
  import opened Events
  import opened Engine
  import opened Books
  import Runs

  type Entry = map<Field, Json>

  // The stream may reject an entry, or take it and fail to say so.
  datatype Outcome = Delivered | Rejected | LostReply

  // ---------- Rows ----------

  function EntryOf(event: OutboxRow): Option<Entry>
  {
    match ParsePayload(event.payload)
    case Ok(payload) => Some(Fields(payload))
    case Err(_) => None
  }

  function PendingPlaces(outbox: seq<OutboxRow>): (places: seq<nat>)
    ensures forall k | 0 <= k < |places| :: places[k] < |outbox| && outbox[places[k]].status == OutboxPending
    ensures forall k, l | 0 <= k < l < |places| :: places[k] < places[l]
  {
    if outbox == [] then []
    else
      var n := |outbox| - 1;
      if outbox[n].status == OutboxPending then PendingPlaces(outbox[..n]) + [n] else PendingPlaces(outbox[..n])
  }

  lemma {:induction false} PendingPlacesAll(outbox: seq<OutboxRow>)
    ensures forall i | 0 <= i < |outbox| && outbox[i].status == OutboxPending :: i in PendingPlaces(outbox)
  {
    if outbox == [] {
    } else {
      PendingPlacesAll(outbox[..|outbox| - 1]);
    }
  }

  // The oldest pending rows, at most the limit: a pending row is left out only when the batch is full
  // and every row in it is older.
  function FetchPending(outbox: seq<OutboxRow>, limit: nat): (places: seq<nat>)
    ensures |places| <= limit
    ensures forall k | 0 <= k < |places| :: places[k] < |outbox| && outbox[places[k]].status == OutboxPending
    ensures forall k, l | 0 <= k < l < |places| :: places[k] < places[l]
    ensures forall i | 0 <= i < |outbox| && outbox[i].status == OutboxPending && i !in places ::
              |places| == limit && forall k | 0 <= k < |places| :: places[k] < i
  {
    PendingPlacesAll(outbox);
    var places := PendingPlaces(outbox);
    if |places| <= limit then places else places[..limit]
  }

  // ---------- The machine ----------

  datatype Phase = ToPublish | ToMark | ToRecord(message: string)

  // A worker between two calls, or in the middle of its batch.
  datatype Worker = Idle | Busy(batch: seq<nat>, at: nat, phase: Phase)

  // failedMarks and lostReplies count the faults at each row, recorded the failures recorded at it.
  datatype System = System(
    db: Db, stream: seq<Entry>, workers: seq<Worker>,
    failedMarks: multiset<nat>, lostReplies: multiset<nat>, recorded: multiset<nat>)

  datatype Event =
    | Fetch(worker: nat)
    | Publish(worker: nat, outcome: Outcome)
    | Mark(worker: nat, ok: bool)
    | Record(worker: nat, ok: bool)
    | Other(op: DbOp)

  predicate Delivery(op: DbOp) { op.MarkPublished? || op.RecordFailure? }

  predicate Enabled(s: System, event: Event)
  {
    match event
    case Fetch(w) => w < |s.workers| && s.workers[w].Idle?
    case Publish(w, _) => w < |s.workers| && s.workers[w].Busy? && s.workers[w].phase == ToPublish && Current(s, w)
    case Mark(w, _) => w < |s.workers| && s.workers[w].Busy? && s.workers[w].phase == ToMark && Current(s, w)
    case Record(w, _) => w < |s.workers| && s.workers[w].Busy? && s.workers[w].phase.ToRecord? && Current(s, w)
    case Other(op) => !Delivery(op) && Legal(s.db, op)
  }

  predicate Current(s: System, w: nat)
    requires w < |s.workers| && s.workers[w].Busy?
  {
    s.workers[w].at < |s.workers[w].batch| && s.workers[w].batch[s.workers[w].at] < |s.db.outbox|
  }

  function Start(batch: seq<nat>): Worker
  {
    if batch == [] then Idle else Busy(batch, 0, ToPublish)
  }

  // On to the next event of the batch.
  function Onward(worker: Worker): Worker
    requires worker.Busy?
  {
    if worker.at + 1 < |worker.batch| then Busy(worker.batch, worker.at + 1, ToPublish) else Idle
  }

  function Next(s: System, event: Event, batchSize: nat): System
    requires Enabled(s, event)
  {
    match event
    case Fetch(w) => s.(workers := s.workers[w := Start(FetchPending(s.db.outbox, batchSize))])
    case Publish(w, outcome) =>
      var worker := s.workers[w];
      var place := worker.batch[worker.at];
      (match EntryOf(s.db.outbox[place])
       case None => s.(workers := s.workers[w := worker.(phase := ToRecord("decode payload"))])
       case Some(entry) =>
         match outcome
         case Delivered => s.(stream := s.stream + [entry], workers := s.workers[w := worker.(phase := ToMark)])
         case Rejected => s.(workers := s.workers[w := worker.(phase := ToRecord("publish"))])
         case LostReply =>
           s.(stream := s.stream + [entry], workers := s.workers[w := worker.(phase := ToRecord("publish"))],
              lostReplies := s.lostReplies + multiset{place}))
    case Mark(w, ok) =>
      var worker := s.workers[w];
      var place := worker.batch[worker.at];
      if ok then s.(db := Step(s.db, MarkPublished(place), Unbounded), workers := s.workers[w := Onward(worker)])
      else s.(workers := s.workers[w := Idle], failedMarks := s.failedMarks + multiset{place})
    case Record(w, ok) =>
      var worker := s.workers[w];
      var place := worker.batch[worker.at];
      if ok then s.(db := Step(s.db, RecordFailure(place, worker.phase.message), Unbounded),
          workers := s.workers[w := Onward(worker)], recorded := s.recorded + multiset{place})
      else s.(workers := s.workers[w := Idle])
    case Other(op) => s.(db := Step(s.db, op, Unbounded))
  }

  function Begin(workers: nat): System
  {
    System(SEEDED, [], seq(workers, _ => Idle), multiset{}, multiset{}, multiset{})
  }

  // One event of the machine.
  function Working(batchSize: nat): (System, Event, System) -> bool
  {
    (s, event, after) => Enabled(s, event) && after == Next(s, event, batchSize)
  }

  // The events lead from idle workers at the seeded database to this system.
  ghost predicate Reaches(workers: nat, events: seq<Event>, s: System, batchSize: nat)
  {
    Runs.Leads(Working(batchSize), Begin(workers), events, s)
  }

  lemma LeadsByTwo(s: System, first: Event, second: Event, batchSize: nat)
    requires Enabled(s, first) && Enabled(Next(s, first, batchSize), second)
    ensures Runs.Leads(Working(batchSize), s, [first, second], Next(Next(s, first, batchSize), second, batchSize))
  {
    hide Enabled, Next, Runs.Leads;
    var mid := Next(s, first, batchSize);
    Runs.Stay(Working(batchSize), s);
    Runs.GoOn(Working(batchSize), s, [], s, first, mid);
    Runs.GoOn(Working(batchSize), s, [] + [first], mid, second, Next(mid, second, batchSize));
    assert [] + [first] + [second] == [first, second];
  }

  // ---------- No row is lost ----------

  // Rows are only added, at the end and pending; what a row says never changes.
  predicate Grows(a: seq<OutboxRow>, b: seq<OutboxRow>)
  {
    |a| <= |b| && SameEvents(a, b[..|a|])
  }

  lemma OthersAppend(db: Db, op: DbOp)
    requires !Delivery(op)
    ensures var outbox := Step(db, op, Unbounded).outbox;
            |db.outbox| <= |outbox| && outbox[..|db.outbox|] == db.outbox
            && forall i | |db.outbox| <= i < |outbox| :: outbox[i].status == OutboxPending
  {
    hide Decide, PostWallets, PostRows, PostKeys, Entries, Fields;
  }

  lemma NextGrows(s: System, event: Event, batchSize: nat)
    requires Enabled(s, event)
    ensures Grows(s.db.outbox, Next(s, event, batchSize).db.outbox)
  {
    hide Legal, EntryOf, FetchPending;
    if event.Other? {
      hide Step;
      OthersAppend(s.db, event.op);
    }
  }

  // ---------- At least once ----------

  ghost predicate InStream(s: System, place: nat)
    requires place < |s.db.outbox|
  {
    EntryOf(s.db.outbox[place]).Some? && EntryOf(s.db.outbox[place]).value in s.stream
  }

  ghost predicate WorkerOk(s: System, worker: Worker)
  {
    worker.Busy? ==>
      && worker.at < |worker.batch|
      && (forall k | 0 <= k < |worker.batch| :: worker.batch[k] < |s.db.outbox|)
      && (worker.phase == ToMark ==> InStream(s, worker.batch[worker.at]))
  }

  ghost predicate FromOutbox(entry: Entry, outbox: seq<OutboxRow>)
  {
    exists i :: 0 <= i < |outbox| && EntryOf(outbox[i]) == Some(entry)
  }

  ghost predicate OnlyEvents(stream: seq<Entry>, outbox: seq<OutboxRow>)
  {
    forall k {:trigger FromOutbox(stream[k], outbox)} | 0 <= k < |stream| :: FromOutbox(stream[k], outbox)
  }

  // Whatever is marked published, or about to be, is in the stream, and nothing else ever is.
  ghost predicate Faithful(s: System)
  {
    && (forall i {:trigger InStream(s, i)} | 0 <= i < |s.db.outbox| && s.db.outbox[i].status == OutboxPublished ::
          InStream(s, i))
    && (forall w {:trigger WorkerOk(s, s.workers[w])} | 0 <= w < |s.workers| :: WorkerOk(s, s.workers[w]))
    && OnlyEvents(s.stream, s.db.outbox)
  }

  // Progress of the rest of the system that no worker needs to worry about.
  lemma WorkerStaysOk(s: System, after: System, worker: Worker)
    requires WorkerOk(s, worker) && Grows(s.db.outbox, after.db.outbox)
    requires forall entry | entry in s.stream :: entry in after.stream
    ensures WorkerOk(after, worker)
  {
    hide ParsePayload, Fields;
    if worker.Busy? && worker.phase == ToMark {
      var i := worker.batch[worker.at];
      assert after.db.outbox[..|s.db.outbox|][i] == after.db.outbox[i];
    }
  }

  lemma StreamStaysOk(s: System, after: System)
    requires Grows(s.db.outbox, after.db.outbox) && s.stream == after.stream
    requires OnlyEvents(s.stream, s.db.outbox)
    ensures OnlyEvents(after.stream, after.db.outbox)
  {
    hide ParsePayload, Fields;
    forall k | 0 <= k < |after.stream| ensures FromOutbox(after.stream[k], after.db.outbox) {
      assert FromOutbox(s.stream[k], s.db.outbox);
      var i :| 0 <= i < |s.db.outbox| && EntryOf(s.db.outbox[i]) == Some(s.stream[k]);
      assert after.db.outbox[..|s.db.outbox|][i] == after.db.outbox[i];
      assert EntryOf(after.db.outbox[i]) == Some(after.stream[k]);
    }
  }

  lemma PublishedStaysOk(s: System, after: System, i: nat)
    requires i < |s.db.outbox| && Grows(s.db.outbox, after.db.outbox) && InStream(s, i)
    requires forall entry | entry in s.stream :: entry in after.stream
    ensures InStream(after, i)
  {
    hide ParsePayload, Fields;
    assert after.db.outbox[..|s.db.outbox|][i] == after.db.outbox[i];
  }

  lemma FetchFaithful(s: System, w: nat, batchSize: nat)
    requires Faithful(s) && Enabled(s, Fetch(w))
    ensures Faithful(Next(s, Fetch(w), batchSize))
  {
    hide EntryOf, PendingPlaces;
    var after := Next(s, Fetch(w), batchSize);
    forall v | 0 <= v < |after.workers| ensures WorkerOk(after, after.workers[v]) {
      if v != w { assert WorkerOk(s, s.workers[v]); }
    }
    forall i | 0 <= i < |after.db.outbox| && after.db.outbox[i].status == OutboxPublished ensures InStream(after, i) {
      assert InStream(s, i);
    }
  }

  lemma PublishFaithful(s: System, w: nat, outcome: Outcome, batchSize: nat)
    requires Faithful(s) && Enabled(s, Publish(w, outcome))
    ensures Faithful(Next(s, Publish(w, outcome), batchSize))
  {
    hide ParsePayload, Fields, EntryOf;
    var after := Next(s, Publish(w, outcome), batchSize);
    var place := s.workers[w].batch[s.workers[w].at];
    forall v | 0 <= v < |after.workers| ensures WorkerOk(after, after.workers[v]) {
      assert WorkerOk(s, s.workers[v]);
      if v != w { WorkerStaysOk(s, after, s.workers[v]); }
    }
    forall i | 0 <= i < |after.db.outbox| && after.db.outbox[i].status == OutboxPublished ensures InStream(after, i) {
      assert InStream(s, i);
    }
    forall k | 0 <= k < |after.stream| ensures FromOutbox(after.stream[k], after.db.outbox) {
      if k < |s.stream| {
        assert FromOutbox(s.stream[k], s.db.outbox);
      } else {
        assert EntryOf(after.db.outbox[place]) == Some(after.stream[k]);
      }
    }
  }

  lemma SettleFaithful(s: System, event: Event, batchSize: nat)
    requires Faithful(s) && Enabled(s, event) && (event.Mark? || event.Record?)
    ensures Faithful(Next(s, event, batchSize))
  {
    hide EntryOf, InStream;
    var after, w := Next(s, event, batchSize), event.worker;
    NextGrows(s, event, batchSize);
    StreamStaysOk(s, after);
    var place := s.workers[w].batch[s.workers[w].at];
    assert WorkerOk(s, s.workers[w]);
    forall v | 0 <= v < |after.workers| ensures WorkerOk(after, after.workers[v]) {
      assert WorkerOk(s, s.workers[v]);
      if v != w { WorkerStaysOk(s, after, s.workers[v]); }
    }
    forall i | 0 <= i < |after.db.outbox| && after.db.outbox[i].status == OutboxPublished ensures InStream(after, i) {
      assert InStream(s, i);
      PublishedStaysOk(s, after, i);
    }
  }

  lemma OtherFaithful(s: System, op: DbOp, batchSize: nat)
    requires Faithful(s) && Enabled(s, Other(op))
    ensures Faithful(Next(s, Other(op), batchSize))
  {
    hide EntryOf, InStream, Step, Legal;
    var after := Next(s, Other(op), batchSize);
    NextGrows(s, Other(op), batchSize);
    OthersAppend(s.db, op);
    StreamStaysOk(s, after);
    forall v | 0 <= v < |after.workers| ensures WorkerOk(after, after.workers[v]) {
      WorkerStaysOk(s, after, s.workers[v]);
    }
    forall i | 0 <= i < |after.db.outbox| && after.db.outbox[i].status == OutboxPublished ensures InStream(after, i) {
      if i < |s.db.outbox| {
        assert after.db.outbox[..|s.db.outbox|][i] == after.db.outbox[i];
        assert InStream(s, i);
        PublishedStaysOk(s, after, i);
      }
    }
  }

  lemma NextFaithful(s: System, event: Event, batchSize: nat)
    requires Faithful(s) && Enabled(s, event)
    ensures Faithful(Next(s, event, batchSize))
  {
    hide Faithful, Next;
    match event
    case Fetch(w) => FetchFaithful(s, w, batchSize);
    case Publish(w, outcome) => PublishFaithful(s, w, outcome, batchSize);
    case Mark(w, ok) => SettleFaithful(s, event, batchSize);
    case Record(w, ok) => SettleFaithful(s, event, batchSize);
    case Other(op) => OtherFaithful(s, op, batchSize);
  }

  lemma NextSound(s: System, event: Event, batchSize: nat)
    requires Sound(s.db) && Enabled(s, event)
    ensures Sound(Next(s, event, batchSize).db)
  {
    hide Sound, Step, EntryOf, FetchPending;
    match event
    case Mark(w, ok) => StepKeepsSound(s.db, MarkPublished(s.workers[w].batch[s.workers[w].at]));
    case Record(w, ok) =>
      StepKeepsSound(s.db, RecordFailure(s.workers[w].batch[s.workers[w].at], s.workers[w].phase.message));
    case Other(op) => StepKeepsSound(s.db, op);
    case _ =>
  }

  // With any number of workers and any faults, in every run: an event marked published is in the
  // stream, the stream holds nothing but events, and the books stay sound.
  lemma {:induction false} AtLeastOnce(workers: nat, events: seq<Event>, s: System, batchSize: nat)
    requires Reaches(workers, events, s, batchSize)
    ensures Faithful(s) && Sound(s.db)
    decreases |events|
  {
    hide Sound, Next, Enabled, Faithful, Runs.Leads;
    if events == [] {
      Runs.Nowhere(Working(batchSize), Begin(workers), events, s);
      SeededIsSound();
      BeginFaithful(workers);
    } else {
      var mid := Runs.GoBack(Working(batchSize), Begin(workers), events, s);
      AtLeastOnce(workers, events[..|events| - 1], mid, batchSize);
      NextFaithful(mid, events[|events| - 1], batchSize);
      NextSound(mid, events[|events| - 1], batchSize);
    }
  }

  lemma BeginFaithful(workers: nat)
    ensures Faithful(Begin(workers))
  {
    hide EntryOf;
  }

  // In every run, every row is still there later with what it said.
  lemma {:induction false} NoRowIsLost(s: System, events: seq<Event>, after: System, batchSize: nat)
    requires Runs.Leads(Working(batchSize), s, events, after)
    ensures Grows(s.db.outbox, after.db.outbox)
    decreases |events|
  {
    hide Next, Enabled, Runs.Leads;
    if events == [] {
      Runs.Nowhere(Working(batchSize), s, events, after);
    } else {
      var mid := Runs.GoBack(Working(batchSize), s, events, after);
      NoRowIsLost(s, events[..|events| - 1], mid, batchSize);
      NextGrows(mid, events[|events| - 1], batchSize);
      var a, b, c := s.db.outbox, mid.db.outbox, after.db.outbox;
      assert forall i | 0 <= i < |a| :: a[i].payload == b[..|a|][i].payload && b[i].payload == c[..|b|][i].payload;
    }
  }

  // ---------- Failures are counted ----------

  ghost predicate RetriesOk(s: System)
  {
    && (forall i | 0 <= i < |s.db.outbox| :: s.db.outbox[i].retries == s.recorded[i])
    && (forall i | i >= |s.db.outbox| :: s.recorded[i] == 0)
  }

  // A new row has not been retried, and no other writer touches a row.
  lemma OthersKeepRetries(db: Db, op: DbOp)
    requires !Delivery(op)
    ensures var outbox := Step(db, op, Unbounded).outbox;
            |db.outbox| <= |outbox| && outbox[..|db.outbox|] == db.outbox
            && forall i | |db.outbox| <= i < |outbox| :: outbox[i].retries == 0 && outbox[i].lastError == None
  {
    hide Decide, PostWallets, PostRows, PostKeys, Entries, Fields;
  }

  lemma NextCountsRetries(s: System, event: Event, batchSize: nat)
    requires RetriesOk(s) && Enabled(s, event)
    ensures RetriesOk(Next(s, event, batchSize))
  {
    hide EntryOf, FetchPending, Legal;
    if event.Other? {
      OthersKeepRetries(s.db, event.op);
      hide Step;
      var after := Next(s, event, batchSize);
      assert forall i | 0 <= i < |s.db.outbox| :: after.db.outbox[i] == after.db.outbox[..|s.db.outbox|][i];
    }
  }

  // In every run of any number of workers, a row's retry count is the number of failures recorded at it.
  lemma {:induction false} RetriesCounted(workers: nat, events: seq<Event>, s: System, batchSize: nat)
    requires Reaches(workers, events, s, batchSize)
    ensures forall i | 0 <= i < |s.db.outbox| :: s.db.outbox[i].retries == s.recorded[i]
    ensures RetriesOk(s)
    decreases |events|
  {
    hide Next, Enabled, Runs.Leads;
    if events == [] {
      Runs.Nowhere(Working(batchSize), Begin(workers), events, s);
    } else {
      var mid := Runs.GoBack(Working(batchSize), Begin(workers), events, s);
      RetriesCounted(workers, events[..|events| - 1], mid, batchSize);
      NextCountsRetries(mid, events[|events| - 1], batchSize);
    }
  }

  // A recorded failure is left on the row with its message until a publication clears it.
  lemma RecordLeavesMessage(s: System, w: nat, batchSize: nat)
    requires Enabled(s, Record(w, true))
    ensures var (place, after) := (s.workers[w].batch[s.workers[w].at], Next(s, Record(w, true), batchSize));
            && after.recorded == s.recorded + multiset{place} && |after.db.outbox| == |s.db.outbox|
            && after.db.outbox[place].lastError == Some(s.workers[w].phase.message)
            && after.db.outbox[place].status == OutboxPending
  {
  }
}
