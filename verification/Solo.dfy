// One outbox worker, as the service starts it: published is final, and copies are counted.
module Solo {
  import opened Wrappers
  import opened Model
  import opened Events
  import opened Engine
  import opened Books
  import opened Outbox
  import opened Status
  import opened Uuid
  import Runs

  // A single worker, with every event of its batch that it has not finished still pending.
  ghost predicate Alone(s: System)
  {
    |s.workers| == 1 && BatchPending(s.db.outbox, s.workers[0])
  }

  ghost predicate BatchPending(outbox: seq<OutboxRow>, worker: Worker)
  {
    worker.Busy? ==>
      && (forall k, l | 0 <= k < l < |worker.batch| :: worker.batch[k] < worker.batch[l])
      && (forall k | worker.at <= k < |worker.batch| ::
            worker.batch[k] < |outbox| && outbox[worker.batch[k]].status == OutboxPending)
  }

  lemma SettleAlone(s: System, event: Event, batchSize: nat)
    requires Alone(s) && Enabled(s, event) && (event.Mark? || event.Record?)
    ensures Alone(Next(s, event, batchSize))
  {
    var worker := s.workers[0];
    var place := worker.batch[worker.at];
    assert forall k | worker.at < k < |worker.batch| :: worker.batch[k] != place;
  }

  lemma OtherAlone(s: System, op: DbOp, batchSize: nat)
    requires Alone(s) && Enabled(s, Other(op))
    ensures Alone(Next(s, Other(op), batchSize))
  {
    hide Legal, Step;
    OthersAppend(s.db, op);
    var after, worker := Next(s, Other(op), batchSize), s.workers[0];
    if worker.Busy? {
      forall k | worker.at <= k < |worker.batch|
        ensures worker.batch[k] < |after.db.outbox| && after.db.outbox[worker.batch[k]].status == OutboxPending
      {
        assert after.db.outbox[..|s.db.outbox|][worker.batch[k]] == after.db.outbox[worker.batch[k]];
      }
    }
  }

  lemma NextAlone(s: System, event: Event, batchSize: nat)
    requires Alone(s) && Enabled(s, event)
    ensures Alone(Next(s, event, batchSize))
  {
    hide EntryOf, PendingPlaces, Legal, Step;
    match event
    case Mark(_, _) => SettleAlone(s, event, batchSize);
    case Record(_, _) => SettleAlone(s, event, batchSize);
    case Other(op) => OtherAlone(s, op, batchSize);
    case _ =>
  }

  // A published event never becomes pending again.
  lemma PublishedIsFinal(s: System, event: Event, batchSize: nat, i: nat)
    requires Alone(s) && Enabled(s, event)
    requires i < |s.db.outbox| && s.db.outbox[i].status == OutboxPublished
    ensures i < |Next(s, event, batchSize).db.outbox|
        && Next(s, event, batchSize).db.outbox[i].status == OutboxPublished
  {
    hide EntryOf, FetchPending, Legal;
    if event.Other? {
      hide Step;
      OthersAppend(s.db, event.op);
      var after := Next(s, event, batchSize);
      assert after.db.outbox[..|s.db.outbox|][i] == after.db.outbox[i];
    }
  }

  // ... in the rest of any run.
  lemma {:induction false} PublishedStays(s: System, events: seq<Event>, after: System, batchSize: nat, i: nat)
    requires Alone(s) && Runs.Leads(Working(batchSize), s, events, after)
    requires i < |s.db.outbox| && s.db.outbox[i].status == OutboxPublished
    ensures Alone(after) && i < |after.db.outbox| && after.db.outbox[i].status == OutboxPublished
    decreases |events|
  {
    hide Next, Enabled, Alone, Runs.Leads;
    if events == [] {
      Runs.Nowhere(Working(batchSize), s, events, after);
    } else {
      var mid := Runs.GoBack(Working(batchSize), s, events, after);
      PublishedStays(s, events[..|events| - 1], mid, batchSize, i);
      NextAlone(mid, events[|events| - 1], batchSize);
      PublishedIsFinal(mid, events[|events| - 1], batchSize, i);
    }
  }

  // ---------- Copies ----------

  function Marking(s: System, i: nat): nat
    requires |s.workers| == 1
  {
    var worker := s.workers[0];
    if worker.Busy? && worker.phase == ToMark && worker.at < |worker.batch| && worker.batch[worker.at] == i
    then 1 else 0
  }

  // How often an entry is in the stream: once if the event is marked published or is being marked,
  // and once more for every mark that failed and every reply that was lost.
  function ExpectedCopies(s: System, i: nat): nat
    requires |s.workers| == 1 && i < |s.db.outbox|
  {
    (if s.db.outbox[i].status == OutboxPublished then 1 else 0) + Marking(s, i) + s.failedMarks[i] + s.lostReplies[i]
  }

  ghost predicate CopiesOk(s: System, i: nat)
    requires |s.workers| == 1 && i < |s.db.outbox|
  {
    EntryOf(s.db.outbox[i]).Some? ==> multiset(s.stream)[EntryOf(s.db.outbox[i]).value] == ExpectedCopies(s, i)
  }

  ghost predicate EntriesDistinct(outbox: seq<OutboxRow>)
  {
    forall i, j | 0 <= i < j < |outbox| && EntryOf(outbox[i]).Some? :: EntryOf(outbox[i]) != EntryOf(outbox[j])
  }

  // Faults are counted at rows that exist.
  ghost predicate FaultsOk(s: System)
  {
    forall i | i >= |s.db.outbox| :: s.failedMarks[i] == 0 && s.lostReplies[i] == 0
  }

  ghost predicate Counted(s: System)
  {
    Alone(s) && FaultsOk(s) && forall i {:trigger CopiesOk(s, i)} | 0 <= i < |s.db.outbox| :: CopiesOk(s, i)
  }

  // Different events have different event ids, so they make different entries.
  lemma SoundEntriesDistinct(db: Db)
    requires OutboxOk(db.outbox, db.transactions) && RowsOk(db.transactions, db.wallets)
    ensures EntriesDistinct(db.outbox)
    ensures forall i | 0 <= i < |db.outbox| :: EntryOf(db.outbox[i]).Some?
  {
    hide ParsePayload, Fields, Announces, EntryOf, EventText;
    forall i | 0 <= i < |db.outbox|
      ensures EntryOf(db.outbox[i]).Some? && EntryText(EntryOf(db.outbox[i]).value) == EventText(db.outbox[i])
    {
      assert Announces(db.outbox[i], db.transactions[i]) && WellFormed(db.transactions[i], db.wallets);
      EntryOfAnnouncement(db.outbox[i], db.transactions[i]);
    }
  }

  function EntryText(entry: Entry): string
  {
    if EventIdField in entry && entry[EventIdField].JsonText? then entry[EventIdField].text else ""
  }

  lemma EntryOfAnnouncement(event: OutboxRow, row: Transaction)
    requires Announces(event, row) && 0 < row.amount <= MAX_INT64
    ensures EntryOf(event).Some? && event.payload == Object(EntryOf(event).value)
    ensures EntryText(EntryOf(event).value) == EventText(event)
  {
    hide ParsePayload, Fields;
    var eventId :| Says(event, row, eventId);
    ParseFields(PayloadOf(eventId, EventTypeOf(row.kind), row));
  }

  // What one publication changes, as far as event i is concerned.
  lemma PublishEffect(s: System, outcome: Outcome, batchSize: nat, i: nat)
    requires |s.workers| == 1 && Enabled(s, Publish(0, outcome))
    ensures var after := Next(s, Publish(0, outcome), batchSize);
            var place := s.workers[0].batch[s.workers[0].at];
            var entry := EntryOf(s.db.outbox[place]);
            var sent := entry.Some? && outcome != Rejected;
            && Marking(s, i) == 0 && |after.workers| == 1
            && after.db == s.db && after.failedMarks == s.failedMarks
            && after.stream == (if sent then s.stream + [entry.value] else s.stream)
            && Marking(after, i) == (if sent && outcome == Delivered && i == place then 1 else 0)
            && after.lostReplies[i] == s.lostReplies[i] + (if sent && outcome == LostReply && i == place then 1 else 0)
  {
    hide EntryOf;
  }

  lemma PublishCopies(s: System, outcome: Outcome, batchSize: nat, i: nat)
    requires |s.workers| == 1 && Enabled(s, Publish(0, outcome)) && i < |s.db.outbox| && CopiesOk(s, i)
    requires s.db.outbox[s.workers[0].batch[s.workers[0].at]].status == OutboxPending
    requires EntriesDistinct(s.db.outbox)
    ensures CopiesOk(Next(s, Publish(0, outcome), batchSize), i)
  {
    var place := s.workers[0].batch[s.workers[0].at];
    PublishEffect(s, outcome, batchSize, i);
    hide EntryOf, Next, Enabled, Marking;
    if i != place && EntryOf(s.db.outbox[i]).Some? { assert EntryOf(s.db.outbox[i]) != EntryOf(s.db.outbox[place]); }
  }

  lemma PublishCounted(s: System, outcome: Outcome, batchSize: nat)
    requires Counted(s) && Enabled(s, Publish(0, outcome)) && EntriesDistinct(s.db.outbox)
    ensures Counted(Next(s, Publish(0, outcome), batchSize))
  {
    var after := Next(s, Publish(0, outcome), batchSize);
    assert FaultsOk(after) && |after.db.outbox| == |s.db.outbox| by { hide EntryOf, CopiesOk, EntriesDistinct; }
    hide Next, EntryOf, CopiesOk, EntriesDistinct;
    NextAlone(s, Publish(0, outcome), batchSize);
    forall i | 0 <= i < |after.db.outbox| ensures CopiesOk(after, i) {
      PublishCopies(s, outcome, batchSize, i);
    }
  }

  lemma MarkCounted(s: System, ok: bool, batchSize: nat)
    requires Counted(s) && Enabled(s, Mark(0, ok))
    ensures Counted(Next(s, Mark(0, ok), batchSize))
  {
    hide ParsePayload, Fields;
    var after := Next(s, Mark(0, ok), batchSize);
    NextAlone(s, Mark(0, ok), batchSize);
    forall i | 0 <= i < |after.db.outbox| ensures CopiesOk(after, i) {
      assert CopiesOk(s, i);
    }
  }

  lemma RecordCounted(s: System, ok: bool, batchSize: nat)
    requires Counted(s) && Enabled(s, Record(0, ok))
    ensures Counted(Next(s, Record(0, ok), batchSize))
  {
    hide ParsePayload, Fields;
    var after := Next(s, Record(0, ok), batchSize);
    NextAlone(s, Record(0, ok), batchSize);
    forall i | 0 <= i < |after.db.outbox| ensures CopiesOk(after, i) {
      assert CopiesOk(s, i);
    }
  }

  lemma FetchCounted(s: System, batchSize: nat)
    requires Counted(s) && Enabled(s, Fetch(0))
    ensures Counted(Next(s, Fetch(0), batchSize))
  {
    hide EntryOf, FetchPending;
    var after := Next(s, Fetch(0), batchSize);
    NextAlone(s, Fetch(0), batchSize);
    forall i | 0 <= i < |after.db.outbox| ensures CopiesOk(after, i) {
      assert CopiesOk(s, i);
    }
  }

  // A new event is in the stream zero times.
  lemma OtherCounted(s: System, op: DbOp, batchSize: nat)
    requires Counted(s) && Faithful(s) && Enabled(s, Other(op))
    requires EntriesDistinct(Next(s, Other(op), batchSize).db.outbox)
    ensures Counted(Next(s, Other(op), batchSize))
  {
    hide EntryOf, Step, Legal, InStream, WorkerOk;
    var after := Next(s, Other(op), batchSize);
    NextAlone(s, Other(op), batchSize);
    OthersAppend(s.db, op);
    forall i | 0 <= i < |after.db.outbox| ensures CopiesOk(after, i) {
      if i < |s.db.outbox| {
        assert after.db.outbox[..|s.db.outbox|][i] == after.db.outbox[i];
        assert CopiesOk(s, i);
      } else {
        assert Marking(after, i) == 0;
        if EntryOf(after.db.outbox[i]).Some? { EntryIsNew(s, after.db.outbox, i); }
      }
    }
  }

  lemma EntryIsNew(s: System, outbox: seq<OutboxRow>, i: nat)
    requires Faithful(s) && EntriesDistinct(outbox)
    requires |s.db.outbox| <= i < |outbox| && outbox[..|s.db.outbox|] == s.db.outbox
    requires EntryOf(outbox[i]).Some?
    ensures EntryOf(outbox[i]).value !in s.stream
  {
    hide EntryOf, InStream, WorkerOk;
    forall k | 0 <= k < |s.stream| ensures s.stream[k] != EntryOf(outbox[i]).value {
      assert FromOutbox(s.stream[k], s.db.outbox);
      var j :| 0 <= j < |s.db.outbox| && EntryOf(s.db.outbox[j]) == Some(s.stream[k]);
      assert outbox[..|s.db.outbox|][j] == outbox[j];
    }
  }

  lemma NextCounted(s: System, event: Event, batchSize: nat)
    requires Counted(s) && Faithful(s) && Sound(s.db) && Enabled(s, event)
    ensures Counted(Next(s, event, batchSize))
  {
    hide Counted, Faithful, Next, OutboxOk, RowsOk, EntriesDistinct, Balanced, DoubleEntry, ZeroSum, ReversalsMatch,
        KeysOk, IdsDistinct;
    assert |s.workers| == 1 by { CountedAlone(s); }
    SoundEntriesDistinct(s.db);
    match event
    case Fetch(w) => FetchCounted(s, batchSize);
    case Publish(w, outcome) => PublishCounted(s, outcome, batchSize);
    case Mark(w, ok) => MarkCounted(s, ok, batchSize);
    case Record(w, ok) => RecordCounted(s, ok, batchSize);
    case Other(op) =>
      NextSound(s, event, batchSize);
      SoundEntriesDistinct(Next(s, event, batchSize).db);
      OtherCounted(s, op, batchSize);
  }

  lemma CountedAlone(s: System)
    requires Counted(s)
    ensures |s.workers| == 1
  {
  }

  // In every run of one worker: each event is in the stream exactly as often as its marks and faults
  // say, so its extra copies are at most its failed marks and lost replies.
  lemma {:induction false} CopiesBounded(events: seq<Event>, s: System, batchSize: nat)
    requires Reaches(1, events, s, batchSize)
    ensures Counted(s) && Faithful(s) && Sound(s.db)
    ensures forall i | 0 <= i < |s.db.outbox| ::
              EntryOf(s.db.outbox[i]).Some?
              && multiset(s.stream)[EntryOf(s.db.outbox[i]).value] <= 1 + s.failedMarks[i] + s.lostReplies[i]
    decreases |events|
  {
    hide Sound, Next, Enabled, Faithful, EntryOf, Counted, Begin, Runs.Leads;
    AtLeastOnce(1, events, s, batchSize);
    if events == [] {
      Runs.Nowhere(Working(batchSize), Begin(1), events, s);
      BeginCounted();
    } else {
      var mid := Runs.GoBack(Working(batchSize), Begin(1), events, s);
      CopiesBounded(events[..|events| - 1], mid, batchSize);
      NextCounted(mid, events[|events| - 1], batchSize);
    }
    AtMostExpected(s);
  }

  lemma BeginCounted()
    ensures Counted(Begin(1))
  {
  }

  lemma AtMostExpected(s: System)
    requires Counted(s) && Sound(s.db)
    ensures forall i | 0 <= i < |s.db.outbox| ::
              EntryOf(s.db.outbox[i]).Some?
              && multiset(s.stream)[EntryOf(s.db.outbox[i]).value] <= 1 + s.failedMarks[i] + s.lostReplies[i]
  {
    hide EntryOf, OutboxOk, RowsOk, Balanced, DoubleEntry, ZeroSum, ReversalsMatch, KeysOk, IdsDistinct;
    SoundEntriesDistinct(s.db);
    forall i | 0 <= i < |s.db.outbox|
      ensures multiset(s.stream)[EntryOf(s.db.outbox[i]).value] <= 1 + s.failedMarks[i] + s.lostReplies[i]
    {
      assert CopiesOk(s, i);
    }
  }

  // ---------- More than one worker ----------

  // Both workers fetch an event before the first of them publishes and marks it.
  const CLASH: seq<Event> := [Fetch(0), Fetch(1), Publish(0, Delivered), Mark(0, true)]

  // The second then fails to publish it and records that.
  const RELAPSE: seq<Event> := [Publish(1, Rejected), Record(1, true)]

  lemma BothFetch(s: System, batchSize: nat) returns (after: System)
    requires |s.workers| >= 2 && s.workers[0].Idle? && s.workers[1].Idle?
    ensures Runs.Leads(Working(batchSize), s, CLASH[..2], after)
    ensures var worker := Start(FetchPending(s.db.outbox, batchSize));
            |after.workers| >= 2 && after.workers[0] == worker && after.workers[1] == worker && after.db == s.db
  {
    hide FetchPending, Runs.Leads;
    LeadsByTwo(s, Fetch(0), Fetch(1), batchSize);
    after := Next(Next(s, Fetch(0), batchSize), Fetch(1), batchSize);
    assert CLASH[..2] == [Fetch(0), Fetch(1)];
  }

  lemma FirstPublishes(s: System, batch: seq<nat>, batchSize: nat) returns (after: System)
    requires |s.workers| >= 2 && s.workers[0] == Busy(batch, 0, ToPublish) && s.workers[1] == s.workers[0]
    requires Current(s, 0) && EntryOf(s.db.outbox[batch[0]]).Some?
    ensures Runs.Leads(Working(batchSize), s, CLASH[2..], after)
    ensures |after.workers| >= 2 && after.workers[1] == s.workers[1] && Current(after, 1)
    ensures after.db.outbox[batch[0]].status == OutboxPublished
    ensures after.db.outbox[batch[0]].payload == s.db.outbox[batch[0]].payload
  {
    hide EntryOf, Runs.Leads;
    LeadsByTwo(s, Publish(0, Delivered), Mark(0, true), batchSize);
    after := Next(Next(s, Publish(0, Delivered), batchSize), Mark(0, true), batchSize);
    assert CLASH[2..] == [Publish(0, Delivered), Mark(0, true)];
  }

  // A worker that fails to publish what is already published makes it pending again.
  lemma SecondUnpublishes(s: System, batchSize: nat) returns (after: System)
    requires |s.workers| >= 2 && s.workers[1].Busy? && s.workers[1].phase == ToPublish && Current(s, 1)
    requires EntryOf(s.db.outbox[s.workers[1].batch[s.workers[1].at]]).Some?
    ensures Runs.Leads(Working(batchSize), s, RELAPSE, after)
    ensures |after.db.outbox| == |s.db.outbox|
    ensures after.db.outbox[s.workers[1].batch[s.workers[1].at]].status == OutboxPending
  {
    hide EntryOf, Runs.Leads;
    LeadsByTwo(s, Publish(1, Rejected), Record(1, true), batchSize);
    after := Next(Next(s, Publish(1, Rejected), batchSize), Record(1, true), batchSize);
  }

  // Event place is published in one state and pending in another.
  predicate Relapses(mid: System, after: System, place: nat)
  {
    && place < |mid.db.outbox| && mid.db.outbox[place].status == OutboxPublished
    && place < |after.db.outbox| && after.db.outbox[place].status == OutboxPending
  }

  // Whenever two idle workers meet a publishable event, it can be published by one and then made
  // pending again by the other.
  lemma TwoWorkersUnpublish(s: System, batchSize: nat) returns (mid: System, after: System)
    requires |s.workers| >= 2 && s.workers[0].Idle? && s.workers[1].Idle?
    requires FetchPending(s.db.outbox, batchSize) != []
    requires EntryOf(s.db.outbox[FetchPending(s.db.outbox, batchSize)[0]]).Some?
    ensures Runs.Leads(Working(batchSize), s, CLASH, mid) && Runs.Leads(Working(batchSize), mid, RELAPSE, after)
    ensures Relapses(mid, after, FetchPending(s.db.outbox, batchSize)[0])
  {
    hide ParsePayload, FetchPending, Runs.Leads;
    var batch := FetchPending(s.db.outbox, batchSize);
    var fetched := BothFetch(s, batchSize);
    mid := FirstPublishes(fetched, batch, batchSize);
    Runs.Join(Working(batchSize), s, CLASH[..2], fetched, CLASH[2..], mid);
    assert CLASH[..2] + CLASH[2..] == CLASH;
    after := SecondUnpublishes(mid, batchSize);
  }

  // ---------- Exactly when published is final ----------

  // A customer's wallet is opened and filled, while every worker is idle.
  lemma FirstEvent(workers: nat, batchSize: nat) returns (s: System)
    requires batchSize > 0
    ensures Reaches(workers, [Other(OpenWallet(CUSTOMER)), Other(Money(DEPOSIT))], s, batchSize)
    ensures s.workers == Begin(workers).workers && FetchPending(s.db.outbox, batchSize) == [0]
    ensures EntryOf(s.db.outbox[0]).Some?
  {
    hide Runs.Leads, Fresh, Decide, Reachable, ParsePayload, PendingPlaces, EventFor;
    var start := Begin(workers);
    OpenedIsReachable();
    LeadsByTwo(start, Other(OpenWallet(CUSTOMER)), Other(Money(DEPOSIT)), batchSize);
    s := Next(Next(start, Other(OpenWallet(CUSTOMER)), batchSize), Other(Money(DEPOSIT)), batchSize);
    var db := DepositedDb();
    assert s.db == db;
    hide Step, Next;
    FirstEventParses(db.outbox[0]);
    OnlyPending(db.outbox, batchSize);
  }

  lemma FirstEventParses(event: OutboxRow)
    requires event == EventFor(11,
        NewTransaction(DEPOSIT, Movement(TopUp, SYSTEM_WALLET_ID, CUSTOMER, 10, None, map[])))
    ensures EntryOf(event).Some? && event.status == OutboxPending
  {
    hide ParsePayload, Fields;
    var row := NewTransaction(DEPOSIT, Movement(TopUp, SYSTEM_WALLET_ID, CUSTOMER, 10, None, map[]));
    ParseFields(PayloadOf(11, EventTypeOf(row.kind), row));
  }

  lemma OnlyPending(outbox: seq<OutboxRow>, batchSize: nat)
    requires |outbox| == 1 && outbox[0].status == OutboxPending && batchSize > 0
    ensures FetchPending(outbox, batchSize) == [0]
  {
    assert PendingPlaces(outbox[..0]) == [];
  }

  // Without a worker nothing is ever published.
  lemma {:induction false} NobodyPublishes(events: seq<Event>, s: System, batchSize: nat)
    requires Reaches(0, events, s, batchSize)
    ensures s.workers == [] && forall i | 0 <= i < |s.db.outbox| :: s.db.outbox[i].status == OutboxPending
    decreases |events|
  {
    hide Runs.Leads, Step, Legal, EntryOf, FetchPending;
    if events == [] {
      Runs.Nowhere(Working(batchSize), Begin(0), events, s);
    } else {
      var mid := Runs.GoBack(Working(batchSize), Begin(0), events, s);
      NobodyPublishes(events[..|events| - 1], mid, batchSize);
      var last := events[|events| - 1];
      OthersAppend(mid.db, last.op);
      assert forall i | 0 <= i < |mid.db.outbox| :: s.db.outbox[i] == s.db.outbox[..|mid.db.outbox|][i];
    }
  }

  // Some run from the seeded database has an event published and later pending again.
  ghost predicate CanRelapse(workers: nat, batchSize: nat)
  {
    exists events, mid, more, after, place ::
      Reaches(workers, events, mid, batchSize) && Runs.Leads(Working(batchSize), mid, more, after)
      && Relapses(mid, after, place)
  }

  // Published is final exactly when there are fewer than two workers.
  lemma RelapseIff(workers: nat, batchSize: nat)
    requires batchSize > 0
    ensures CanRelapse(workers, batchSize) <==> workers >= 2
  {
    hide Runs.Leads, FetchPending, EntryOf, Sound, Faithful;
    if workers >= 2 {
      var events := [Other(OpenWallet(CUSTOMER)), Other(Money(DEPOSIT))];
      var s := FirstEvent(workers, batchSize);
      var mid, after := TwoWorkersUnpublish(s, batchSize);
      Runs.Join(Working(batchSize), Begin(workers), events, s, CLASH, mid);
      assert Reaches(workers, events + CLASH, mid, batchSize);
    } else if CanRelapse(workers, batchSize) {
      var events, mid, more, after, place :|
        Reaches(workers, events, mid, batchSize) && Runs.Leads(Working(batchSize), mid, more, after)
        && Relapses(mid, after, place);
      if workers == 0 {
        NobodyPublishes(events, mid, batchSize);
      } else {
        CopiesBounded(events, mid, batchSize);
        hide EntryOf;
        PublishedStays(mid, more, after, batchSize, place);
      }
    }
  }
}
