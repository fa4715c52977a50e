// A consumer of the stream that skips repeated event ids and applies the rest: once every event is
// published it holds every balance, whatever the order and however often events came.
module Stream {
  import opened Wrappers
  import opened Uuid
  import opened Model
  import opened Events
  import opened Engine
  import opened Sums
  import opened Books
  import opened Outbox
  import opened Solo

  datatype Consumer = Consumer(seen: set<string>, balances: map<string, int>)

  const NEW_CONSUMER: Consumer := Consumer({}, map[])

  // The text of an id field, if the entry has one.
  function TextField(entry: Entry, field: Field): Option<string>
  {
    if field in entry && entry[field].JsonText? then Some(entry[field].text) else None
  }

  function Amount(entry: Entry): int
  {
    if AmountField in entry && entry[AmountField].JsonNumber? then entry[AmountField].number else 0
  }

  function Held(balances: map<string, int>, wallet: string): int
  {
    if wallet in balances then balances[wallet] else 0
  }

  function Adjust(balances: map<string, int>, wallet: Option<string>, delta: int): map<string, int>
  {
    match wallet
    case Some(text) => balances[text := Held(balances, text) + delta]
    case None => balances
  }

  function Consume(c: Consumer, entry: Entry): Consumer
  {
    var id := EntryText(entry);
    if id in c.seen then c
    else Consumer(c.seen + {id},
                  Adjust(Adjust(c.balances, TextField(entry, SourceField), -Amount(entry)),
                         TextField(entry, DestinationField), Amount(entry)))
  }

  function ConsumeAll(stream: seq<Entry>): Consumer
    decreases |stream|
  {
    if stream == [] then NEW_CONSUMER
    else Consume(ConsumeAll(stream[..|stream| - 1]), stream[|stream| - 1])
  }

  // ---------- Which effects have arrived ----------

  // The effect on a wallet of the transactions whose events have been seen.
  function Arrived(rows: seq<Transaction>, outbox: seq<OutboxRow>, seen: set<string>, wallet: Id): int
    requires |rows| == |outbox|
    decreases |rows|
  {
    if rows == [] then 0
    else
      var n := |rows| - 1;
      Arrived(rows[..n], outbox[..n], seen, wallet)
      + if EventText(outbox[n]) in seen then Effect(rows[n], wallet) else 0
  }

  ghost predicate TextsDistinct(outbox: seq<OutboxRow>)
  {
    forall i, j | 0 <= i < j < |outbox| :: EventText(outbox[i]) != EventText(outbox[j])
  }

  lemma {:induction false} ArrivedWithoutNew(rows: seq<Transaction>, outbox: seq<OutboxRow>, seen: set<string>,
      id: string, wallet: Id)
    requires |rows| == |outbox| && forall i | 0 <= i < |outbox| :: EventText(outbox[i]) != id
    ensures Arrived(rows, outbox, seen + {id}, wallet) == Arrived(rows, outbox, seen, wallet)
    decreases |rows|
  {
    hide EventText;
    if rows == [] {
    } else {
      var n := |rows| - 1;
      ArrivedWithoutNew(rows[..n], outbox[..n], seen, id, wallet);
    }
  }

  // A new event adds its own transaction's effect and nothing else.
  lemma {:induction false} ArrivedWithNew(rows: seq<Transaction>, outbox: seq<OutboxRow>, seen: set<string>, i: nat,
      wallet: Id)
    requires |rows| == |outbox| && TextsDistinct(outbox) && i < |outbox| && EventText(outbox[i]) !in seen
    ensures Arrived(rows, outbox, seen + {EventText(outbox[i])}, wallet)
         == Arrived(rows, outbox, seen, wallet) + Effect(rows[i], wallet)
    decreases |rows|
  {
    hide EventText;
    var n := |rows| - 1;
    if i == n {
      ArrivedWithoutNew(rows[..n], outbox[..n], seen, EventText(outbox[n]), wallet);
    } else {
      ArrivedWithNew(rows[..n], outbox[..n], seen, i, wallet);
    }
  }

  lemma {:induction false} AllArrived(rows: seq<Transaction>, outbox: seq<OutboxRow>, seen: set<string>, wallet: Id)
    requires |rows| == |outbox| && forall i | 0 <= i < |outbox| :: EventText(outbox[i]) in seen
    ensures Arrived(rows, outbox, seen, wallet) == Sum(rows, AllMoves(wallet))
    decreases |rows|
  {
    hide EventText;
    if rows == [] {
    } else {
      var n := |rows| - 1;
      AllArrived(rows[..n], outbox[..n], seen, wallet);
    }
  }

  lemma {:induction false} NoneArrived(rows: seq<Transaction>, outbox: seq<OutboxRow>, wallet: Id)
    requires |rows| == |outbox|
    ensures Arrived(rows, outbox, {}, wallet) == 0
    decreases |rows|
  {
    hide EventText;
    if rows == [] {
    } else {
      NoneArrived(rows[..|rows| - 1], outbox[..|rows| - 1], wallet);
    }
  }

  // ---------- One entry ----------

  lemma SameText(a: Id, b: Id)
    ensures Uuid.Text(a) == Uuid.Text(b) <==> a == b
  {
    LockOrdersAgree(a, b);
  }

  // An entry moves what its transaction moved.
  lemma EntryMoves(balances: map<string, int>, entry: Entry, payload: Payload, row: Transaction, wallet: Id)
    requires Carries(entry, payload)
    requires payload.source == row.source && payload.destination == row.destination && payload.amount == row.amount
    ensures var after := Adjust(Adjust(balances, TextField(entry, SourceField), -Amount(entry)),
                                TextField(entry, DestinationField), Amount(entry));
            Held(after, Uuid.Text(wallet)) == Held(balances, Uuid.Text(wallet)) + Effect(row, wallet)
  {
    hide Uuid.Text;
    if row.source.Some? { SameText(row.source.value, wallet); }
    if row.destination.Some? { SameText(row.destination.value, wallet); }
  }

  ghost predicate OutboxTables(db: Db)
  {
    OutboxOk(db.outbox, db.transactions) && RowsOk(db.transactions, db.wallets)
  }

  lemma EventAt(db: Db, i: nat, entry: Entry) returns (payload: Payload)
    requires OutboxTables(db) && i < |db.outbox| && EntryOf(db.outbox[i]) == Some(entry)
    ensures Carries(entry, payload)
    ensures payload.source == db.transactions[i].source && payload.destination == db.transactions[i].destination
    ensures payload.amount == db.transactions[i].amount
    ensures EntryText(entry) == EventText(db.outbox[i])
  {
    hide ParsePayload, Fields, Carries, EntryText, EventText;
    var row := db.transactions[i];
    assert WellFormed(row, db.wallets) && Announces(db.outbox[i], row);
    EntryOfAnnouncement(db.outbox[i], row);
    var eventId :| Says(db.outbox[i], row, eventId);
    payload := PayloadOf(eventId, EventTypeOf(row.kind), row);
    FieldsCarry(payload);
  }

  // What the consumer holds after any part of the stream.
  ghost predicate Tracks(c: Consumer, db: Db)
    requires |db.transactions| == |db.outbox|
  {
    forall wallet :: Held(c.balances, Uuid.Text(wallet)) == Arrived(db.transactions, db.outbox, c.seen, wallet)
  }

  lemma ConsumeTracks(c: Consumer, db: Db, entry: Entry)
    requires OutboxTables(db) && Tracks(c, db) && FromOutbox(entry, db.outbox)
    ensures Tracks(Consume(c, entry), db) && EntryText(entry) in Consume(c, entry).seen
  {
    hide EntryOf, Carries, EventText, EntryText, RowsOk, Announces;
    var i :| 0 <= i < |db.outbox| && EntryOf(db.outbox[i]) == Some(entry);
    var payload := EventAt(db, i, entry);
    if EntryText(entry) !in c.seen {
      forall wallet
        ensures Held(Consume(c, entry).balances, Uuid.Text(wallet))
             == Arrived(db.transactions, db.outbox, Consume(c, entry).seen, wallet)
      {
        hide Adjust, Arrived, Held;
        EntryMoves(c.balances, entry, payload, db.transactions[i], wallet);
        ArrivedWithNew(db.transactions, db.outbox, c.seen, i, wallet);
      }
    }
  }

  lemma {:induction false} StreamTracks(stream: seq<Entry>, db: Db)
    requires OutboxTables(db) && OnlyEvents(stream, db.outbox)
    ensures Tracks(ConsumeAll(stream), db)
    ensures forall k | 0 <= k < |stream| :: EntryText(stream[k]) in ConsumeAll(stream).seen
    decreases |stream|
  {
    hide FromOutbox, EntryText, Tracks, OutboxTables, Consume;
    assert |db.transactions| == |db.outbox| by { TablesMatch(db); }
    if stream == [] {
      NothingTracks(db);
    } else {
      var n := |stream| - 1;
      StreamTracks(stream[..n], db);
      ConsumeTracks(ConsumeAll(stream[..n]), db, stream[n]);
      SeenGrows(ConsumeAll(stream[..n]), stream[n]);
      forall k | 0 <= k < |stream| ensures EntryText(stream[k]) in ConsumeAll(stream).seen {
        if k < n { assert stream[..n][k] == stream[k]; }
      }
    }
  }

  lemma TablesMatch(db: Db)
    requires OutboxTables(db)
    ensures |db.transactions| == |db.outbox|
  {
  }

  lemma NothingTracks(db: Db)
    requires |db.transactions| == |db.outbox|
    ensures Tracks(NEW_CONSUMER, db)
  {
    forall wallet ensures Held(map[], Uuid.Text(wallet)) == Arrived(db.transactions, db.outbox, {}, wallet) {
      NoneArrived(db.transactions, db.outbox, wallet);
    }
  }

  lemma SeenGrows(c: Consumer, entry: Entry)
    ensures c.seen <= Consume(c, entry).seen
  {
    hide EntryText;
  }

  // ---------- The stream is enough ----------

  lemma DrainedSeen(db: Db, stream: seq<Entry>, i: nat)
    requires OutboxTables(db) && i < |db.outbox|
    requires Holds(stream, db.outbox[i])
    requires forall k | 0 <= k < |stream| :: EntryText(stream[k]) in ConsumeAll(stream).seen
    ensures EventText(db.outbox[i]) in ConsumeAll(stream).seen
  {
    hide EntryOf, ConsumeAll, EntryText, EventText, OutboxTables;
    var payload := EventAt(db, i, EntryOf(db.outbox[i]).value);
    var k :| 0 <= k < |stream| && stream[k] == EntryOf(db.outbox[i]).value;
    assert EntryText(stream[k]) == EventText(db.outbox[i]);
  }

  lemma SoundTables(db: Db)
    requires Sound(db)
    ensures OutboxTables(db) && Balanced(db.wallets, db.transactions, db.ledger)
  {
    hide RowsOk, OutboxOk, KeysOk, ReversalsMatch, DoubleEntry, IdsDistinct, ZeroSum, Balanced;
  }

  predicate Holds(stream: seq<Entry>, event: OutboxRow)
  {
    EntryOf(event).Some? && EntryOf(event).value in stream
  }

  ghost predicate HoldsAll(stream: seq<Entry>, outbox: seq<OutboxRow>)
  {
    forall i {:trigger Holds(stream, outbox[i])} | 0 <= i < |outbox| :: Holds(stream, outbox[i])
  }

  // Any stream that holds every event and nothing else rebuilds every balance: in any order, with
  // any repetitions.
  lemma AnyOrderRebuilds(db: Db, stream: seq<Entry>, wallet: Id)
    requires Sound(db) && wallet in db.wallets
    requires HoldsAll(stream, db.outbox)
    requires OnlyEvents(stream, db.outbox)
    ensures Held(ConsumeAll(stream).balances, Uuid.Text(wallet)) == db.wallets[wallet].balance
  {
    hide Sound, EntryOf, ConsumeAll, EventText, FromOutbox, Sum, LedgerNet, Held, Arrived, EntryText, OutboxTables;
    SoundTables(db);
    TablesMatch(db);
    StreamTracks(stream, db);
    forall i | 0 <= i < |db.outbox| ensures EventText(db.outbox[i]) in ConsumeAll(stream).seen {
      DrainedSeen(db, stream, i);
    }
    AllArrived(db.transactions, db.outbox, ConsumeAll(stream).seen, wallet);
  }

  // In every run of the whole system, with any number of workers and any faults: when no event is
  // left unpublished, the stream rebuilds every stored balance.
  lemma StreamRebuildsBalances(workers: nat, events: seq<Event>, s: System, batchSize: nat, wallet: Id)
    requires Reaches(workers, events, s, batchSize) && wallet in s.db.wallets
    requires forall i | 0 <= i < |s.db.outbox| :: s.db.outbox[i].status == OutboxPublished
    ensures Held(ConsumeAll(s.stream).balances, Uuid.Text(wallet)) == s.db.wallets[wallet].balance
  {
    hide Sound, Reaches, EntryOf, FromOutbox, ConsumeAll, Held, WorkerOk;
    AtLeastOnce(workers, events, s, batchSize);
    forall i | 0 <= i < |s.db.outbox| ensures Holds(s.stream, s.db.outbox[i]) {
      assert InStream(s, i);
    }
    AnyOrderRebuilds(s.db, s.stream, wallet);
  }
}
