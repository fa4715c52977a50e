// The outbox worker as the service runs it: one batch per call, with its early exits.
module Publisher {
  import opened Events
  import opened Outbox
  import opened Batches
  import opened Repository

  class StreamPublisher {
    var entries: seq<Entry>

    constructor ()
      ensures entries == []
    {
      entries := [];
    }

    // Appends an entry unless the stream rejects it; a lost reply reads as a failure.
    method Publish(values: Entry, outcome: Outcome) returns (ok: bool)
      modifies this
      ensures ok == (outcome == Delivered)
      ensures entries == if outcome == Rejected then old(entries) else old(entries) + [values]
    {
      if outcome != Rejected { entries := entries + [values]; }
      return outcome == Delivered;
    }
  }

  class Worker {
    const repo: Database
    const publisher: StreamPublisher
    const batchSize: nat

    constructor (repo: Database, publisher: StreamPublisher, batchSize: nat)
      ensures this.repo == repo && this.publisher == publisher && this.batchSize == batchSize
    {
      this.repo, this.publisher, this.batchSize := repo, publisher, batchSize;
    }

    // One batch; stopped says that a database call failed and the rest of the batch was left.
    method PublishPending(weather: Weather) returns (stopped: bool)
      modifies repo`outbox, publisher
      ensures Progress(repo.outbox, publisher.entries, stopped)
           == Batches.PublishPending(old(repo.outbox), old(publisher.entries), batchSize, weather)
    {
      hide EntryOf, ProcessRow;
      var ok, batch := repo.FetchPending(batchSize, weather.fetchFails);
      if !ok { return true; }
      ghost var goal := ProcessBatch(repo.outbox, publisher.entries, batch, weather);
      var i := 0;
      while i < |batch|
        invariant i <= |batch|
        invariant Within(batch, repo.outbox)
        invariant ProcessBatch(repo.outbox, publisher.entries, batch[i..], weather) == goal
      {
        stopped := Process(batch[i], weather);
        assert batch[i..][1..] == batch[i + 1..];
        if stopped { return; }
        i := i + 1;
      }
      stopped := false;
    }

    // One event of the batch.
    method Process(place: nat, weather: Weather) returns (stopped: bool)
      requires place < |repo.outbox|
      modifies repo`outbox, publisher
      ensures Progress(repo.outbox, publisher.entries, stopped)
           == ProcessRow(old(repo.outbox), old(publisher.entries), place, weather)
    {
      hide ParsePayload, Fields;
      var event := repo.outbox[place];
      var parsed := ParsePayload(event.payload);
      if parsed.Err? {
        var recorded := repo.RecordFailure(place, "decode payload", weather.recordFails(place));
        return !recorded;
      }
      var values := ToStreamValues(parsed.value);
      var sent := publisher.Publish(values, weather.publish(place));
      if !sent {
        var recorded := repo.RecordFailure(place, "publish", weather.recordFails(place));
        return !recorded;
      }
      var marked := repo.MarkPublished(place, weather.markFails(place));
      return !marked;
    }
  }
}
