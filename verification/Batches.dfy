// One call of PublishPending as a whole, and what repeated calls get through.
module Batches {
  import opened Wrappers
  import opened Model
  import opened Events
  import opened Outbox
  import Runs

  // What goes wrong during one call, row by row.
  datatype Weather = Weather(
    fetchFails: bool, publish: nat -> Outcome, markFails: nat -> bool, recordFails: nat -> bool)

  // The outbox and the stream after some work, and whether the call had to stop there.
  datatype Progress = Progress(outbox: seq<OutboxRow>, stream: seq<Entry>, stopped: bool)

  function MarkedRow(event: OutboxRow): OutboxRow
  {
    event.(status := OutboxPublished, lastError := None)
  }

  function FailedRow(event: OutboxRow, message: string): OutboxRow
  {
    event.(status := OutboxPending, retries := event.retries + 1, lastError := Some(message))
  }

  function RecordRow(outbox: seq<OutboxRow>, stream: seq<Entry>, place: nat, message: string,
      weather: Weather): Progress
    requires place < |outbox|
  {
    if weather.recordFails(place) then Progress(outbox, stream, true)
    else Progress(outbox[place := FailedRow(outbox[place], message)], stream, false)
  }

  // One event: parse it, publish it, mark it; a failure to parse or publish is recorded instead.
  function ProcessRow(outbox: seq<OutboxRow>, stream: seq<Entry>, place: nat, weather: Weather): (p: Progress)
    requires place < |outbox|
    ensures |p.outbox| == |outbox|
  {
    match EntryOf(outbox[place])
    case None => RecordRow(outbox, stream, place, "decode payload", weather)
    case Some(entry) =>
      match weather.publish(place)
      case Rejected => RecordRow(outbox, stream, place, "publish", weather)
      case LostReply => RecordRow(outbox, stream + [entry], place, "publish", weather)
      case Delivered =>
        if weather.markFails(place) then Progress(outbox, stream + [entry], true)
        else Progress(outbox[place := MarkedRow(outbox[place])], stream + [entry], false)
  }

  predicate Within(batch: seq<nat>, outbox: seq<OutboxRow>)
  {
    forall k | 0 <= k < |batch| :: batch[k] < |outbox|
  }

  // The events of a batch in order, up to the first database failure.
  function ProcessBatch(outbox: seq<OutboxRow>, stream: seq<Entry>, batch: seq<nat>, weather: Weather): (p: Progress)
    requires Within(batch, outbox)
    ensures |p.outbox| == |outbox|
    decreases |batch|
  {
    if batch == [] then Progress(outbox, stream, false)
    else
      var p := ProcessRow(outbox, stream, batch[0], weather);
      if p.stopped then p else ProcessBatch(p.outbox, p.stream, batch[1..], weather)
  }

  function PublishPending(outbox: seq<OutboxRow>, stream: seq<Entry>, batchSize: nat, weather: Weather): (p: Progress)
    ensures |p.outbox| == |outbox|
  {
    if weather.fetchFails then Progress(outbox, stream, true)
    else ProcessBatch(outbox, stream, FetchPending(outbox, batchSize), weather)
  }

  // ---------- What a call does to each row ----------

  // The stream takes the event and says so.
  predicate Sent(event: OutboxRow, place: nat, weather: Weather)
  {
    EntryOf(event).Some? && weather.publish(place) == Delivered
  }

  // The database call that settles the event fails.
  predicate DbFails(event: OutboxRow, place: nat, weather: Weather)
  {
    if Sent(event, place, weather) then weather.markFails(place) else weather.recordFails(place)
  }

  // The row of an event that has been settled.
  function SettledRow(event: OutboxRow, place: nat, weather: Weather): OutboxRow
  {
    if Sent(event, place, weather)
    then OutboxRow(event.aggregate, event.eventType, event.payload, OutboxPublished, event.retries, None)
    else OutboxRow(event.aggregate, event.eventType, event.payload, OutboxPending, event.retries + 1,
                   Some(if EntryOf(event).None? then "decode payload" else "publish"))
  }

  lemma RowEffect(outbox: seq<OutboxRow>, stream: seq<Entry>, place: nat, weather: Weather)
    requires place < |outbox|
    ensures var p := ProcessRow(outbox, stream, place, weather);
            && (p.stopped <==> DbFails(outbox[place], place, weather))
            && p.outbox == (if p.stopped then outbox else outbox[place := SettledRow(outbox[place], place, weather)])
            && |p.stream| <= |stream| + 1
  {
    hide EntryOf;
  }

  // The first n rows of the batch are settled; the others, and all rows outside it, are as they were.
  predicate SettledUpTo(outbox: seq<OutboxRow>, after: seq<OutboxRow>, batch: seq<nat>, n: nat, weather: Weather)
    requires Within(batch, outbox)
  {
    && |after| == |outbox| && n <= |batch|
    && (forall k | 0 <= k < n :: after[batch[k]] == SettledRow(outbox[batch[k]], batch[k], weather))
    && (forall k | n <= k < |batch| :: after[batch[k]] == outbox[batch[k]])
    && (forall i | 0 <= i < |outbox| && i !in batch :: after[i] == outbox[i])
  }

  predicate NoRepeats(batch: seq<nat>)
  {
    forall k, l | 0 <= k < l < |batch| :: batch[k] != batch[l]
  }

  lemma SettleOne(outbox: seq<OutboxRow>, mid: seq<OutboxRow>, after: seq<OutboxRow>, batch: seq<nat>, n: nat,
      weather: Weather)
    requires batch != [] && Within(batch, outbox) && NoRepeats(batch)
    requires mid == outbox[batch[0] := SettledRow(outbox[batch[0]], batch[0], weather)]
    requires SettledUpTo(mid, after, batch[1..], n, weather)
    ensures SettledUpTo(outbox, after, batch, n + 1, weather)
  {
    hide SettledRow;
    var rest := batch[1..];
    forall k | 1 <= k < |batch| ensures mid[batch[k]] == outbox[batch[k]] && batch[k] == rest[k - 1] { }
    forall i | 0 <= i < |outbox| && i !in batch ensures after[i] == outbox[i] {
      assert i !in rest && i != batch[0];
    }
    assert batch[0] !in rest;
  }

  // A batch is settled row by row up to the first failed database call, at row n of it; the stream has
  // taken at most one entry for each row tried.
  lemma {:induction false} StopsAtFailure(outbox: seq<OutboxRow>, stream: seq<Entry>, batch: seq<nat>, weather: Weather)
      returns (n: nat)
    requires Within(batch, outbox) && NoRepeats(batch)
    ensures n <= |batch|
    ensures forall k | 0 <= k < n :: !DbFails(outbox[batch[k]], batch[k], weather)
    ensures n < |batch| ==> DbFails(outbox[batch[n]], batch[n], weather)
    ensures var p := ProcessBatch(outbox, stream, batch, weather);
            && (p.stopped <==> n < |batch|) && SettledUpTo(outbox, p.outbox, batch, n, weather)
            && |p.stream| <= |stream| + n + (if p.stopped then 1 else 0)
    decreases |batch|
  {
    hide ProcessRow, DbFails, SettledRow;
    if batch == [] {
      n := 0;
    } else {
      RowEffect(outbox, stream, batch[0], weather);
      var p := ProcessRow(outbox, stream, batch[0], weather);
      if p.stopped {
        n := 0;
      } else {
        var rest := batch[1..];
        var m := StopsAtFailure(p.outbox, p.stream, rest, weather);
        SettleOne(outbox, p.outbox, ProcessBatch(p.outbox, p.stream, rest, weather).outbox, batch, m, weather);
        hide SettledUpTo;
        n := m + 1;
        forall k | 1 <= k < |batch| ensures batch[k] == rest[k - 1] && p.outbox[batch[k]] == outbox[batch[k]] { }
      }
    }
  }

  // A call whose fetch fails does nothing.
  lemma NothingFetched(outbox: seq<OutboxRow>, stream: seq<Entry>, batchSize: nat, weather: Weather)
    requires weather.fetchFails
    ensures PublishPending(outbox, stream, batchSize, weather) == Progress(outbox, stream, true)
  {
  }

  // ---------- A call is a run of the machine ----------

  function RowEvents(w: nat, event: OutboxRow, place: nat, weather: Weather): seq<Event>
  {
    match EntryOf(event)
    case None => [Publish(w, Rejected), Record(w, !weather.recordFails(place))]
    case Some(_) =>
      match weather.publish(place)
      case Delivered => [Publish(w, Delivered), Mark(w, !weather.markFails(place))]
      case outcome => [Publish(w, outcome), Record(w, !weather.recordFails(place))]
  }

  // The state of the machine with this worker's progress put in.
  function Put(s: System, w: nat, p: Progress, worker: Worker): System
    requires w < |s.workers|
  {
    s.(db := s.db.(outbox := p.outbox), stream := p.stream, workers := s.workers[w := worker])
  }

  // The same database, stream and workers; only the fault counters may differ.
  predicate SameSystem(a: System, b: System)
  {
    a.db == b.db && a.stream == b.stream && a.workers == b.workers
  }

  // Recording a failure, or failing to.
  lemma RecordStep(s: System, w: nat, worker: Worker, message: string, weather: Weather, batchSize: nat)
    requires w < |s.workers| && s.workers[w] == worker && worker.Busy? && worker.phase == ToRecord(message)
    requires worker.at < |worker.batch| && Within(worker.batch, s.db.outbox)
    ensures var place := worker.batch[worker.at];
            var event := Record(w, !weather.recordFails(place));
            var p := RecordRow(s.db.outbox, s.stream, place, message, weather);
            Enabled(s, event) && SameSystem(Next(s, event, batchSize),
                Put(s, w, p, if p.stopped then Idle else Onward(worker)))
  {
  }

  lemma MarkStep(s: System, w: nat, worker: Worker, weather: Weather, batchSize: nat)
    requires w < |s.workers| && s.workers[w] == worker && worker.Busy? && worker.phase == ToMark
    requires worker.at < |worker.batch| && Within(worker.batch, s.db.outbox)
    ensures var place := worker.batch[worker.at];
            var event := Mark(w, !weather.markFails(place));
            var p := if weather.markFails(place) then Progress(s.db.outbox, s.stream, true)
                     else Progress(s.db.outbox[place := MarkedRow(s.db.outbox[place])], s.stream, false);
            Enabled(s, event) && SameSystem(Next(s, event, batchSize),
                Put(s, w, p, if p.stopped then Idle else Onward(worker)))
  {
  }

  // The first of the two steps for a row.
  lemma PublishStep(s: System, w: nat, worker: Worker, outcome: Outcome, batchSize: nat)
    requires w < |s.workers| && s.workers[w] == worker && worker.Busy? && worker.phase == ToPublish
    requires worker.at < |worker.batch| && Within(worker.batch, s.db.outbox)
    ensures Enabled(s, Publish(w, outcome))
    ensures var entry := EntryOf(s.db.outbox[worker.batch[worker.at]]);
            var after := Next(s, Publish(w, outcome), batchSize);
            && after.db == s.db
            && after.stream == (if entry.None? || outcome == Rejected then s.stream else s.stream + [entry.value])
            && after.workers == s.workers[w := worker.(phase :=
                 if entry.None? then ToRecord("decode payload")
                 else if outcome == Delivered then ToMark else ToRecord("publish"))]
  {
    hide EntryOf;
  }

  // Putting in progress forgets what else happened to this worker.
  lemma PutAgain(s: System, mid: System, w: nat, sent: Worker, p: Progress, worker: Worker)
    requires w < |s.workers| && mid.db == s.db && mid.workers == s.workers[w := sent]
    ensures SameSystem(Put(mid, w, p, worker), Put(s, w, p, worker))
  {
  }

  // Two steps of the machine do to the system what ProcessRow says.
  lemma RowIsTwoSteps(s: System, w: nat, worker: Worker, weather: Weather, batchSize: nat)
    requires w < |s.workers| && s.workers[w] == worker && worker.Busy? && worker.phase == ToPublish
    requires worker.at < |worker.batch| && Within(worker.batch, s.db.outbox)
    ensures var place := worker.batch[worker.at];
            var events := RowEvents(w, s.db.outbox[place], place, weather);
            var p := ProcessRow(s.db.outbox, s.stream, place, weather);
            && |events| == 2
            && Enabled(s, events[0])
            && Enabled(Next(s, events[0], batchSize), events[1])
            && SameSystem(Next(Next(s, events[0], batchSize), events[1], batchSize),
                          Put(s, w, p, if p.stopped then Idle else Onward(worker)))
  {
    hide EntryOf, Next, Enabled, MarkedRow, FailedRow, Put;
    var place := worker.batch[worker.at];
    var events := RowEvents(w, s.db.outbox[place], place, weather);
    var p := ProcessRow(s.db.outbox, s.stream, place, weather);
    var end := if p.stopped then Idle else Onward(worker);
    PublishStep(s, w, worker, events[0].outcome, batchSize);
    var mid := Next(s, events[0], batchSize);
    var sent := mid.workers[w];
    assert Onward(sent) == Onward(worker);
    if events[1].Mark? {
      MarkStep(mid, w, sent, weather, batchSize);
    } else {
      RecordStep(mid, w, sent, sent.phase.message, weather, batchSize);
    }
    assert SameSystem(Next(mid, events[1], batchSize), Put(mid, w, p, end));
    hide ProcessRow, Onward, RowEvents;
    PutAgain(s, mid, w, sent, p, end);
  }

  // The steps of a worker from one place of its batch to the end of its call.
  function BatchEvents(outbox: seq<OutboxRow>, stream: seq<Entry>, batch: seq<nat>, w: nat,
      weather: Weather): seq<Event>
    requires Within(batch, outbox)
    decreases |batch|
  {
    if batch == [] then []
    else
      var p := ProcessRow(outbox, stream, batch[0], weather);
      RowEvents(w, outbox[batch[0]], batch[0], weather)
      + if p.stopped then [] else BatchEvents(p.outbox, p.stream, batch[1..], w, weather)
  }

  lemma {:induction false} BatchIsRun(s: System, w: nat, worker: Worker, weather: Weather, batchSize: nat)
      returns (after: System)
    requires w < |s.workers| && s.workers[w] == worker && worker.Busy? && worker.phase == ToPublish
    requires worker.at < |worker.batch| && Within(worker.batch, s.db.outbox)
    ensures var rest := worker.batch[worker.at..];
            var p := ProcessBatch(s.db.outbox, s.stream, rest, weather);
            && Runs.Leads(Working(batchSize), s, BatchEvents(s.db.outbox, s.stream, rest, w, weather), after)
            && SameSystem(after, Put(s, w, p, Idle))
    decreases |worker.batch| - worker.at
  {
    hide EntryOf, Next, Enabled, ProcessRow, RowEvents, Runs.Leads;
    var rest := worker.batch[worker.at..];
    var place := worker.batch[worker.at];
    var pair := RowEvents(w, s.db.outbox[place], place, weather);
    var p := ProcessRow(s.db.outbox, s.stream, place, weather);
    RowIsTwoSteps(s, w, worker, weather, batchSize);
    LeadsByTwo(s, pair[0], pair[1], batchSize);
    assert pair == [pair[0], pair[1]];
    after := Next(Next(s, pair[0], batchSize), pair[1], batchSize);
    if p.stopped {
      assert pair + [] == pair;
    } else if worker.at + 1 < |worker.batch| {
      var mid, next := after, Onward(worker);
      assert rest[1..] == next.batch[next.at..];
      after := BatchIsRun(mid, w, next, weather, batchSize);
      Runs.Join(Working(batchSize), s, pair, mid, BatchEvents(p.outbox, p.stream, rest[1..], w, weather), after);
    } else {
      assert rest[1..] == [] && pair + [] == pair;
    }
  }

  // A call of PublishPending is a run of the machine in which only this worker moves, so everything
  // proved of every run holds of any number of overlapping and repeated calls.
  lemma CallIsRun(s: System, w: nat, weather: Weather, batchSize: nat) returns (after: System)
    requires w < |s.workers| && s.workers[w].Idle? && !weather.fetchFails
    ensures var batch := FetchPending(s.db.outbox, batchSize);
            var events := [Fetch(w)] + BatchEvents(s.db.outbox, s.stream, batch, w, weather);
            Runs.Leads(Working(batchSize), s, events, after)
    ensures SameSystem(after, Put(s, w, PublishPending(s.db.outbox, s.stream, batchSize, weather), Idle))
  {
    hide FetchPending, ProcessRow, RowEvents, Runs.Leads;
    var batch := FetchPending(s.db.outbox, batchSize);
    var fetched := Next(s, Fetch(w), batchSize);
    Runs.Stay(Working(batchSize), s);
    Runs.GoOn(Working(batchSize), s, [], s, Fetch(w), fetched);
    assert [] + [Fetch(w)] == [Fetch(w)];
    if batch == [] {
      after := fetched;
      assert [Fetch(w)] + [] == [Fetch(w)];
    } else {
      hide Next, Enabled;
      after := BatchIsRun(fetched, w, Busy(batch, 0, ToPublish), weather, batchSize);
      assert batch[0..] == batch;
      var events := BatchEvents(s.db.outbox, s.stream, batch, w, weather);
      Runs.Join(Working(batchSize), s, [Fetch(w)], fetched, events, after);
    }
  }

  // ---------- Getting through ----------

  // Steady weather: the database answers, and the stream rejects exactly the poison rows.
  function Steady(poison: set<nat>): Weather
  {
    Weather(false, i => if i in poison then Rejected else Delivered, _ => false, _ => false)
  }

  // An event that can never be published.
  predicate Bad(outbox: seq<OutboxRow>, poison: set<nat>, i: nat)
    requires i < |outbox|
  {
    i in poison || EntryOf(outbox[i]).None?
  }

  function Calls(outbox: seq<OutboxRow>, poison: set<nat>, batchSize: nat, n: nat): (after: seq<OutboxRow>)
    ensures |after| == |outbox|
  {
    if n == 0 then outbox
    else PublishPending(Calls(outbox, poison, batchSize, n - 1), [], batchSize, Steady(poison)).outbox
  }

  // How many pending events before place e are publishable, or are not.
  function Waiting(outbox: seq<OutboxRow>, poison: set<nat>, e: nat, bad: bool): nat
    requires e <= |outbox|
  {
    if e == 0 then 0
    else Waiting(outbox, poison, e - 1, bad)
         + if outbox[e - 1].status == OutboxPending && Bad(outbox, poison, e - 1) == bad then 1 else 0
  }

  function Rank(outbox: seq<OutboxRow>, poison: set<nat>, e: nat): nat
    requires e <= |outbox|
  {
    Waiting(outbox, poison, e, true) + Waiting(outbox, poison, e, false)
  }

  lemma SteadySettles(outbox: seq<OutboxRow>, poison: set<nat>, i: nat)
    requires i < |outbox| && outbox[i].status == OutboxPending
    ensures !DbFails(outbox[i], i, Steady(poison))
    ensures var row := SettledRow(outbox[i], i, Steady(poison));
            && row.payload == outbox[i].payload
            && row.status == if Bad(outbox, poison, i) then OutboxPending else OutboxPublished
  {
    hide EntryOf;
  }

  // What a steady call does to each row: the rows of the batch that can be published are.
  lemma SteadyBatch(outbox: seq<OutboxRow>, stream: seq<Entry>, batch: seq<nat>, poison: set<nat>)
    requires Within(batch, outbox)
    requires forall k | 0 <= k < |batch| :: outbox[batch[k]].status == OutboxPending
    requires forall k, l | 0 <= k < l < |batch| :: batch[k] < batch[l]
    ensures var p := ProcessBatch(outbox, stream, batch, Steady(poison));
            && !p.stopped
            && forall i | 0 <= i < |outbox| ::
                 && p.outbox[i].payload == outbox[i].payload
                 && p.outbox[i].status
                    == if i in batch && !Bad(outbox, poison, i) then OutboxPublished else outbox[i].status
  {
    hide DbFails, SettledRow, Steady, Bad, ProcessBatch;
    var n := StopsAtFailure(outbox, stream, batch, Steady(poison));
    if n < |batch| { SteadySettles(outbox, poison, batch[n]); }
    var p := ProcessBatch(outbox, stream, batch, Steady(poison));
    forall i | 0 <= i < |outbox|
      ensures p.outbox[i].payload == outbox[i].payload
      ensures p.outbox[i].status
           == if i in batch && !Bad(outbox, poison, i) then OutboxPublished else outbox[i].status
    {
      if i in batch {
        var k :| 0 <= k < |batch| && batch[k] == i;
        SteadySettles(outbox, poison, i);
      }
    }
  }

  lemma {:induction false} RankCounts(outbox: seq<OutboxRow>, poison: set<nat>)
    ensures |PendingPlaces(outbox)| == Rank(outbox, poison, |outbox|)
  {
    if outbox == [] {
    } else {
      var n := |outbox| - 1;
      RankCounts(outbox[..n], poison);
      WaitingPrefix(outbox, poison, n, n, true);
      WaitingPrefix(outbox, poison, n, n, false);
    }
  }

  lemma {:induction false} WaitingPrefix(outbox: seq<OutboxRow>, poison: set<nat>, n: nat, e: nat, bad: bool)
    requires e <= n <= |outbox|
    ensures Waiting(outbox[..n], poison, e, bad) == Waiting(outbox, poison, e, bad)
  {
    hide EntryOf;
    if e == 0 {
    } else {
      WaitingPrefix(outbox, poison, n, e - 1, bad);
    }
  }

  // A pending event stands in the queue where its rank says.
  lemma {:induction false} PlaceInQueue(outbox: seq<OutboxRow>, poison: set<nat>, e: nat)
    requires e < |outbox| && outbox[e].status == OutboxPending
    ensures Rank(outbox, poison, e) < |PendingPlaces(outbox)|
    ensures PendingPlaces(outbox)[Rank(outbox, poison, e)] == e
    decreases |outbox|
  {
    hide Bad, Waiting;
    var n := |outbox| - 1;
    WaitingPrefix(outbox, poison, n, e, true);
    WaitingPrefix(outbox, poison, n, e, false);
    if e == n {
      RankCounts(outbox[..n], poison);
    } else {
      PlaceInQueue(outbox[..n], poison, e);
    }
  }

  // So it is fetched exactly when fewer than a batch are pending before it.
  lemma Fetched(outbox: seq<OutboxRow>, poison: set<nat>, e: nat, batchSize: nat)
    requires e < |outbox| && outbox[e].status == OutboxPending
    ensures e in FetchPending(outbox, batchSize) <==> Rank(outbox, poison, e) < batchSize
  {
    PlaceInQueue(outbox, poison, e);
    hide PendingPlaces, Rank;
    var places, r := PendingPlaces(outbox), Rank(outbox, poison, e);
    var batch := FetchPending(outbox, batchSize);
    if r < batchSize { assert batch[r] == e; }
    assert forall k | 0 <= k < |batch| && batch[k] == e :: k == r;
  }

  // One steady call, in terms of ranks.
  lemma SteadyCall(outbox: seq<OutboxRow>, poison: set<nat>, batchSize: nat)
    ensures var after := PublishPending(outbox, [], batchSize, Steady(poison)).outbox;
            forall i | 0 <= i < |outbox| ::
              && after[i].payload == outbox[i].payload
              && (Bad(after, poison, i) <==> Bad(outbox, poison, i))
              && after[i].status ==
                   if outbox[i].status == OutboxPending && Rank(outbox, poison, i) < batchSize
                       && !Bad(outbox, poison, i)
                   then OutboxPublished else outbox[i].status
  {
    hide ParsePayload, Fields, Rank, PendingPlaces;
    SteadyBatch(outbox, [], FetchPending(outbox, batchSize), poison);
    forall i | 0 <= i < |outbox|
      ensures i in FetchPending(outbox, batchSize)
              <==> outbox[i].status == OutboxPending && Rank(outbox, poison, i) < batchSize
    {
      if outbox[i].status == OutboxPending { Fetched(outbox, poison, i, batchSize); }
    }
  }

  function Excess(x: int): nat { if x > 0 then x else 0 }

  // Bad events keep their places; of the good ones only those beyond the batch are left.
  lemma {:induction false} QueueAfterCall(outbox: seq<OutboxRow>, poison: set<nat>, batchSize: nat, e: nat)
    requires e <= |outbox|
    ensures var after := PublishPending(outbox, [], batchSize, Steady(poison)).outbox;
            && Waiting(after, poison, e, true) == Waiting(outbox, poison, e, true)
            && Waiting(after, poison, e, false) <= Excess(Rank(outbox, poison, e) - batchSize)
  {
    hide Bad, PublishPending;
    SteadyCall(outbox, poison, batchSize);
    if e == 0 {
    } else {
      QueueAfterCall(outbox, poison, batchSize, e - 1);
    }
  }

  // After n calls: n times the room that the bad events leave has gone through.
  lemma {:induction false} QueueAfterCalls(outbox: seq<OutboxRow>, poison: set<nat>, batchSize: nat, n: nat, e: nat)
    requires e <= |outbox| && Waiting(outbox, poison, e, true) < batchSize
    ensures var after := Calls(outbox, poison, batchSize, n);
            var room := batchSize - Waiting(outbox, poison, e, true);
            && Waiting(after, poison, e, true) == Waiting(outbox, poison, e, true)
            && Waiting(after, poison, e, false) <= Excess(Waiting(outbox, poison, e, false) - n * room)
  {
    hide Waiting, PublishPending;
    if n == 0 {
    } else {
      QueueAfterCalls(outbox, poison, batchSize, n - 1, e);
      QueueAfterCall(Calls(outbox, poison, batchSize, n - 1), poison, batchSize, e);
      var room := batchSize - Waiting(outbox, poison, e, true);
      assert n * room == (n - 1) * room + room;
    }
  }

  // Rows keep their payloads, and what is published stays published.
  lemma {:induction false} CallsKeep(outbox: seq<OutboxRow>, poison: set<nat>, batchSize: nat, n: nat, i: nat)
    requires i < |outbox|
    ensures var after := Calls(outbox, poison, batchSize, n);
            && (Bad(after, poison, i) <==> Bad(outbox, poison, i))
            && (outbox[i].status == OutboxPublished ==> after[i].status == OutboxPublished)
            && (outbox[i].status == OutboxPending
                ==> after[i].status == OutboxPending || after[i].status == OutboxPublished)
  {
    hide Bad, PublishPending, Rank;
    if n == 0 {
    } else {
      CallsKeep(outbox, poison, batchSize, n - 1, i);
      SteadyCall(Calls(outbox, poison, batchSize, n - 1), poison, batchSize);
    }
  }

  // If k pending events always fail and k is below the batch size, the g others are all published
  // after any n calls with n * (batchSize - k) >= g.
  lemma AllGetThrough(outbox: seq<OutboxRow>, poison: set<nat>, batchSize: nat, n: nat, i: nat)
    requires i < |outbox| && outbox[i].status == OutboxPending && !Bad(outbox, poison, i)
    requires Waiting(outbox, poison, |outbox|, true) < batchSize
    requires n * (batchSize - Waiting(outbox, poison, |outbox|, true)) >= Waiting(outbox, poison, |outbox|, false)
    ensures Calls(outbox, poison, batchSize, n)[i].status == OutboxPublished
  {
    hide Bad, Waiting, Calls;
    QueueAfterCalls(outbox, poison, batchSize, n, |outbox|);
    CallsKeep(outbox, poison, batchSize, n, i);
    var after := Calls(outbox, poison, batchSize, n);
    assert Waiting(after, poison, |outbox|, false) == 0;
    if after[i].status == OutboxPending { CountedIn(after, poison, i, |outbox|); }
  }

  lemma {:induction false} CountedIn(outbox: seq<OutboxRow>, poison: set<nat>, i: nat, e: nat)
    requires i < e <= |outbox| && outbox[i].status == OutboxPending && !Bad(outbox, poison, i)
    ensures Waiting(outbox, poison, e, false) > 0
  {
    hide Bad;
    if i == e - 1 {
    } else {
      CountedIn(outbox, poison, i, e - 1);
    }
  }

  // An event behind a full batch of bad ones never moves.
  lemma {:induction false} StuckBehind(outbox: seq<OutboxRow>, poison: set<nat>, batchSize: nat, n: nat, e: nat)
    requires e < |outbox| && outbox[e].status == OutboxPending
    requires Waiting(outbox, poison, e, true) >= batchSize
    ensures Calls(outbox, poison, batchSize, n)[e].status == OutboxPending
    ensures Waiting(Calls(outbox, poison, batchSize, n), poison, e, true) >= batchSize
  {
    hide Waiting, PublishPending, Bad;
    if n == 0 {
    } else {
      var earlier := Calls(outbox, poison, batchSize, n - 1);
      StuckBehind(outbox, poison, batchSize, n - 1, e);
      SteadyCall(earlier, poison, batchSize);
      QueueAfterCall(earlier, poison, batchSize, e);
    }
  }

  // Exactly which publishable events ever get through: those with fewer than a batch of
  // unpublishable pending events before them.
  lemma GetsThroughIff(outbox: seq<OutboxRow>, poison: set<nat>, batchSize: nat, e: nat)
    requires e < |outbox| && outbox[e].status == OutboxPending && !Bad(outbox, poison, e)
    ensures (exists n: nat :: Calls(outbox, poison, batchSize, n)[e].status == OutboxPublished)
            <==> Waiting(outbox, poison, e, true) < batchSize
  {
    hide Bad, Waiting, Calls;
    if Waiting(outbox, poison, e, true) < batchSize {
      GetsThrough(outbox, poison, batchSize, e);
    } else {
      forall n: nat ensures Calls(outbox, poison, batchSize, n)[e].status == OutboxPending {
        StuckBehind(outbox, poison, batchSize, n, e);
      }
    }
  }

  // ... and by when: one call for every full room of events before it, and one more.
  lemma GetsThrough(outbox: seq<OutboxRow>, poison: set<nat>, batchSize: nat, e: nat)
    requires e < |outbox| && outbox[e].status == OutboxPending && !Bad(outbox, poison, e)
    requires Waiting(outbox, poison, e, true) < batchSize
    ensures var n := Waiting(outbox, poison, e, false) / (batchSize - Waiting(outbox, poison, e, true)) + 1;
            Calls(outbox, poison, batchSize, n)[e].status == OutboxPublished
  {
    hide Bad, Waiting, PublishPending;
    var b, g := Waiting(outbox, poison, e, true), Waiting(outbox, poison, e, false);
    var n := g / (batchSize - b);
    QueueAfterCalls(outbox, poison, batchSize, n, e);
    CallsKeep(outbox, poison, batchSize, n, e);
    assert g - n * (batchSize - b) < batchSize - b;
    SteadyCall(Calls(outbox, poison, batchSize, n), poison, batchSize);
  }
}
