// What one API call does to the database: the decision it takes, the rows it writes,
// and runs of calls and other writers one after another.
module Engine {
  import opened Wrappers
  import opened Uuid
  import opened Model
  import opened Events

  // ---------- Arithmetic ----------

  // Balances are int64 columns; the books are proved on unbounded integers and carried over.
  datatype Arith = Unbounded | Int64

  function Wrap(x: int): (r: int)
    ensures MIN_INT64 <= r <= MAX_INT64
    ensures MIN_INT64 <= x <= MAX_INT64 ==> r == x
    ensures (r - x) % 0x1_0000_0000_0000_0000 == 0
  {
    (x - MIN_INT64) % 0x1_0000_0000_0000_0000 + MIN_INT64
  }

  function Stored(x: int, arith: Arith): int
  {
    match arith
    case Unbounded => x
    case Int64 => Wrap(x)
  }

  // ---------- Decisions ----------

  // A double-entry posting: the amount leaves source and arrives at destination.
  datatype Movement = Movement(
    kind: Kind, source: Id, destination: Id, amount: int, related: Option<Id>, metadata: Metadata)

  datatype Replay = Miss | Mismatch | Hit(response: Response)

  datatype Decision = Rejects(error: Error) | Replays(response: Response) | Posts(movement: Movement)

  // What the request binding demands of an amount.
  predicate ValidRequest(request: Request)
  {
    match request
    case TopUpRequest(_, amount, _) => 0 < amount <= MAX_INT64
    case TransferRequest(_, _, amount, _) => 0 < amount <= MAX_INT64
    case ReverseRequest(_) => true
  }

  predicate SelfTransfer(request: Request)
  {
    request.TransferRequest? && request.source == request.destination
  }

  // The look-up of an earlier answer, outside any database transaction.
  function Lookup(keys: map<Slot, IdempotencyRecord>, call: Call): Replay
  {
    if call.key == "" || SlotOf(call) !in keys then Miss
    else
      var record := keys[SlotOf(call)];
      if record.request != call.request then Mismatch
      else match record.response
        case Some(response) => Hit(response)
        case None => Miss
  }

  // The row that a reversal locks first.
  function Original(db: Db, request: Request): Option<Transaction>
  {
    if request.ReverseRequest? then GetTransaction(db.transactions, request.transaction) else None
  }

  // The checks made before any wallet row is read.
  function Vet(request: Request, original: Option<Transaction>): Result<Movement, Error>
  {
    match request
    case TopUpRequest(wallet, amount, metadata) =>
      Ok(Movement(TopUp, SYSTEM_WALLET_ID, wallet, amount, None, metadata))
    case TransferRequest(source, destination, amount, metadata) =>
      Ok(Movement(Transfer, source, destination, amount, None, metadata))
    case ReverseRequest(_) =>
      match original
      case None => Err(NotFound)
      case Some(row) =>
        if row.status == Reversed then Err(AlreadyReversed)
        else if row.kind != TopUp && row.kind != Transfer then Err(Validation)
        else if row.source.None? || row.destination.None? then Err(Validation)
        else Ok(Movement(Reversal, row.destination.value, row.source.value, row.amount, Some(row.id), row.metadata))
  }

  // The checks made on the locked wallet rows.
  function Admit(m: Movement, rows: map<Id, Wallet>): Option<Error>
  {
    if m.source !in rows || m.destination !in rows || m.source == m.destination then Some(NotFound)
    else match m.kind
      case TopUp =>
        if rows[m.destination].status != Active then Some(WalletNotActive) else None
      case Transfer =>
        if rows[m.source].status != Active || rows[m.destination].status != Active then Some(WalletNotActive)
        else if rows[m.source].balance < m.amount then Some(InsufficientFunds)
        else None
      case Reversal =>
        if rows[m.source].balance < m.amount then Some(InsufficientFunds) else None
  }

  // The part of the decision taken inside the database transaction, once the key is inserted.
  function Judge(db: Db, call: Call): (d: Decision)
    ensures !d.Replays?
    ensures d.Posts? ==> d.movement.source in db.wallets && d.movement.destination in db.wallets
  {
    match Vet(call.request, Original(db, call.request))
    case Err(error) => Rejects(error)
    case Ok(m) =>
      match Admit(m, db.wallets)
      case Some(error) => Rejects(error)
      case None => Posts(m)
  }

  function Decide(db: Db, call: Call): (d: Decision)
    ensures d.Posts? ==> d.movement.source in db.wallets && d.movement.destination in db.wallets
  {
    if SelfTransfer(call.request) then Rejects(Validation)
    else match Lookup(db.keys, call)
      case Mismatch => Rejects(IdempotencyConflict)
      case Hit(response) => Replays(response)
      case Miss =>
        if call.key != "" && SlotOf(call) in db.keys then Rejects(Conflict) else Judge(db, call)
  }

  // ---------- Effects ----------

  function NewTransaction(call: Call, m: Movement): Transaction
  {
    Transaction(call.transactionId, m.kind, Completed, Some(m.source), Some(m.destination), m.amount,
                OptionalString(call.key), m.related, m.metadata)
  }

  function Moved(wallet: Wallet, delta: int, arith: Arith): Wallet
  {
    wallet.(balance := Stored(wallet.balance + delta, arith))
  }

  function MarkReversed(rows: seq<Transaction>, id: Option<Id>): (marked: seq<Transaction>)
    ensures |marked| == |rows|
  {
    match id
    case None => rows
    case Some(value) =>
      match FindTransaction(rows, value)
      case Some(i) => rows[i := rows[i].(status := Reversed)]
      case None => rows
  }

  function Entries(row: Transaction, m: Movement): seq<LedgerEntry>
  {
    [LedgerEntry(row.id, m.source, Debit, m.amount), LedgerEntry(row.id, m.destination, Credit, m.amount)]
  }

  function Answered(call: Call, row: Transaction): IdempotencyRecord
  {
    IdempotencyRecord(call.request, Some(Response(201, row)), Some(row.id))
  }

  function PostWallets(wallets: map<Id, Wallet>, m: Movement, arith: Arith): map<Id, Wallet>
    requires m.source in wallets && m.destination in wallets
  {
    wallets[m.source := Moved(wallets[m.source], -m.amount, arith)]
           [m.destination := Moved(wallets[m.destination], m.amount, arith)]
  }

  function PostRows(rows: seq<Transaction>, related: Option<Id>, row: Transaction): seq<Transaction>
  {
    MarkReversed(rows, related) + [row]
  }

  function PostKeys(keys: map<Slot, IdempotencyRecord>, call: Call, row: Transaction): map<Slot, IdempotencyRecord>
  {
    if call.key == "" then keys else keys[SlotOf(call) := Answered(call, row)]
  }

  function EventFor(eventId: Id, row: Transaction): OutboxRow
  {
    NewOutboxEvent(eventId, EventTypeOf(row.kind), row)
  }

  // Everything a posted call leaves behind, in one piece.
  function Post(db: Db, call: Call, m: Movement, arith: Arith): Db
    requires m.source in db.wallets && m.destination in db.wallets
  {
    var row := NewTransaction(call, m);
    Db(PostWallets(db.wallets, m, arith),
       PostRows(db.transactions, m.related, row),
       db.ledger + Entries(row, m),
       PostKeys(db.keys, call, row),
       db.outbox + [EventFor(call.eventId, row)])
  }

  function After(db: Db, call: Call, arith: Arith): Db
  {
    match Decide(db, call)
    case Posts(m) => Post(db, call, m, arith)
    case _ => db
  }

  function Answer(db: Db, call: Call): Result<Response, Error>
  {
    match Decide(db, call)
    case Rejects(error) => Err(error)
    case Replays(response) => Ok(response)
    case Posts(m) => Ok(Response(201, NewTransaction(call, m)))
  }

  // ---------- Writes, statement by statement ----------

  datatype Write =
    | InsertKey(slot: Slot, request: Request)
    | InsertTransaction(row: Transaction)
    | SaveWallet(id: Id, wallet: Wallet)
    | InsertLedger(entries: seq<LedgerEntry>)
    | SaveTransaction(row: Transaction)
    | InsertOutbox(event: OutboxRow)
    | SaveResponse(slot: Slot, response: Response, resource: Id)

  function ApplyWrite(db: Db, write: Write): Db
  {
    match write
    case InsertKey(slot, request) => db.(keys := db.keys[slot := IdempotencyRecord(request, None, None)])
    case InsertTransaction(row) => db.(transactions := db.transactions + [row])
    case SaveWallet(id, wallet) => db.(wallets := db.wallets[id := wallet])
    case InsertLedger(entries) => db.(ledger := db.ledger + entries)
    case SaveTransaction(row) =>
      (match FindTransaction(db.transactions, row.id)
       case Some(i) => db.(transactions := db.transactions[i := row])
       case None => db.(transactions := db.transactions + [row]))
    case InsertOutbox(event) => db.(outbox := db.outbox + [event])
    case SaveResponse(slot, response, resource) =>
      if slot in db.keys
      then db.(keys := db.keys[slot := db.keys[slot].(response := Some(response), resource := Some(resource))])
      else db
  }

  function Apply(db: Db, writes: seq<Write>): Db
    decreases |writes|
  {
    if writes == [] then db else ApplyWrite(Apply(db, writes[..|writes| - 1]), writes[|writes| - 1])
  }

  // The two balance updates; a reversal saves the wallet it credits first.
  function WalletWrites(m: Movement, rows: map<Id, Wallet>, arith: Arith): (Write, Write)
    requires m.source in rows && m.destination in rows
  {
    var debit := SaveWallet(m.source, Moved(rows[m.source], -m.amount, arith));
    var credit := SaveWallet(m.destination, Moved(rows[m.destination], m.amount, arith));
    if m.kind == Reversal then (credit, debit) else (debit, credit)
  }

  // The statements of one call after its checks, in program order, from the rows it has read.
  function Script(call: Call, m: Movement, original: Option<Transaction>, rows: map<Id, Wallet>,
      arith: Arith): (writes: seq<Write>)
    requires m.source in rows && m.destination in rows
    ensures |writes| <= 8
  {
    var row := NewTransaction(call, m);
    var moves := WalletWrites(m, rows, arith);
    var opening := if call.key == "" then [] else [InsertKey(SlotOf(call), call.request)];
    var booked := opening + [InsertTransaction(row)] + [moves.0] + [moves.1] + [InsertLedger(Entries(row, m))];
    var marked := if original.Some? then booked + [SaveTransaction(original.value.(status := Reversed))] else booked;
    var announced := marked + [InsertOutbox(EventFor(call.eventId, row))];
    if call.key == "" then announced else announced + [SaveResponse(SlotOf(call), Response(201, row), row.id)]
  }

  lemma ApplyNext(db: Db, writes: seq<Write>, next: Write)
    ensures Apply(db, writes + [next]) == ApplyWrite(Apply(db, writes), next)
  {
    assert (writes + [next])[..|writes|] == writes;
  }

  lemma FindInExtended(rows: seq<Transaction>, row: Transaction, id: Id)
    requires row.id != id
    ensures FindTransaction(rows + [row], id) == FindTransaction(rows, id)
  {
    assert (rows + [row])[..|rows|] == rows;
  }

  // The database after the statements that every posting makes.
  lemma BookedState(db: Db, opening: seq<Write>, row: Transaction, first: Write, second: Write,
      entries: seq<LedgerEntry>, base: Db)
    requires base == Apply(db, opening) && first.SaveWallet? && second.SaveWallet?
    ensures Apply(db, opening + [InsertTransaction(row)] + [first] + [second] + [InsertLedger(entries)])
         == Db(base.wallets[first.id := first.wallet][second.id := second.wallet],
               base.transactions + [row], base.ledger + entries, base.keys, base.outbox)
  {
    hide Apply;
    ApplyNext(db, opening, InsertTransaction(row));
    ApplyNext(db, opening + [InsertTransaction(row)], first);
    ApplyNext(db, opening + [InsertTransaction(row)] + [first], second);
    ApplyNext(db, opening + [InsertTransaction(row)] + [first] + [second], InsertLedger(entries));
  }

  // Marking the original after the reversal row is inserted is marking it before.
  lemma MarkedState(db: Db, before: seq<Transaction>, row: Transaction, id: Id)
    requires db.transactions == before + [row]
    requires GetTransaction(before, id).Some? && row.id != id
    ensures var original := GetTransaction(before, id).value;
            ApplyWrite(db, SaveTransaction(original.(status := Reversed)))
            == db.(transactions := PostRows(before, Some(id), row))
  {
    FindInExtended(before, row, id);
    var i := FindTransaction(before, id).value;
    var marked := before[i].(status := Reversed);
    assert (before + [row])[i := marked] == before[i := marked] + [row];
  }

  // A key inserted without a response and then given one.
  lemma KeptResponse(db: Db, before: map<Slot, IdempotencyRecord>, slot: Slot, request: Request, row: Transaction)
    requires db.keys == before[slot := IdempotencyRecord(request, None, None)]
    ensures ApplyWrite(db, SaveResponse(slot, Response(201, row), row.id))
         == db.(keys := before[slot := IdempotencyRecord(request, Some(Response(201, row)), Some(row.id))])
  {
    assert db.keys[slot := IdempotencyRecord(request, Some(Response(201, row)), Some(row.id))]
        == before[slot := IdempotencyRecord(request, Some(Response(201, row)), Some(row.id))];
  }

  // The two saves commute, and make the two balance changes of the posting.
  lemma WalletWritesMeet(wallets: map<Id, Wallet>, m: Movement, rows: map<Id, Wallet>, arith: Arith)
    requires m.source in rows && m.source in wallets && rows[m.source] == wallets[m.source]
    requires m.destination in rows && m.destination in wallets && rows[m.destination] == wallets[m.destination]
    requires m.source != m.destination
    ensures var (first, second) := WalletWrites(m, rows, arith);
            wallets[first.id := first.wallet][second.id := second.wallet] == PostWallets(wallets, m, arith)
  {
  }

  // The optional statements around the booking: the mark on the original, the event, the response.
  lemma ClosedState(db: Db, booked: seq<Write>, mark: Option<Write>, event: OutboxRow, closing: Option<Write>)
    ensures var marked := if mark.Some? then booked + [mark.value] else booked;
            var announced := marked + [InsertOutbox(event)];
            var b := Apply(db, booked);
            var c := if mark.Some? then ApplyWrite(b, mark.value) else b;
            var d := ApplyWrite(c, InsertOutbox(event));
            Apply(db, if closing.Some? then announced + [closing.value] else announced)
            == if closing.Some? then ApplyWrite(d, closing.value) else d
  {
    hide Apply, ApplyWrite;
    var marked := if mark.Some? then booked + [mark.value] else booked;
    if mark.Some? { ApplyNext(db, booked, mark.value); }
    ApplyNext(db, marked, InsertOutbox(event));
    if closing.Some? { ApplyNext(db, marked + [InsertOutbox(event)], closing.value); }
  }

  // The database after the whole script, table by table.
  lemma ScriptState(db: Db, call: Call, m: Movement, original: Option<Transaction>, rows: map<Id, Wallet>, arith: Arith)
    requires m.source in rows && m.destination in rows
    ensures var row := NewTransaction(call, m);
            var (first, second) := WalletWrites(m, rows, arith);
            var start := if call.key == "" then db else ApplyWrite(db, InsertKey(SlotOf(call), call.request));
            var b := Db(db.wallets[first.id := first.wallet][second.id := second.wallet],
                        db.transactions + [row], db.ledger + Entries(row, m), start.keys, db.outbox);
            var c := if original.Some? then ApplyWrite(b, SaveTransaction(original.value.(status := Reversed))) else b;
            var d := ApplyWrite(c, InsertOutbox(EventFor(call.eventId, row)));
            Apply(db, Script(call, m, original, rows, arith))
            == if call.key == "" then d else ApplyWrite(d, SaveResponse(SlotOf(call), Response(201, row), row.id))
  {
    var row := NewTransaction(call, m);
    var (first, second) := WalletWrites(m, rows, arith);
    var opening := if call.key == "" then [] else [InsertKey(SlotOf(call), call.request)];
    var start := if call.key == "" then db else ApplyWrite(db, InsertKey(SlotOf(call), call.request));
    assert Apply(db, opening) == start by {
      if call.key != "" {
        assert opening == [] + [InsertKey(SlotOf(call), call.request)];
        ApplyNext(db, [], opening[0]);
      }
    }
    BookedState(db, opening, row, first, second, Entries(row, m), start);
    var booked := opening + [InsertTransaction(row)] + [first] + [second] + [InsertLedger(Entries(row, m))];
    var event := EventFor(call.eventId, row);
    var mark := if original.Some? then Some(SaveTransaction(original.value.(status := Reversed))) else None;
    var closing := if call.key == "" then None else Some(SaveResponse(SlotOf(call), Response(201, row), row.id));
    ClosedState(db, booked, mark, event, closing);
  }

  // Running the statements one by one gives the posting in one piece, when the rows they were
  // computed from are the rows in the database.
  lemma ScriptPosts(db: Db, call: Call, m: Movement, rows: map<Id, Wallet>, arith: Arith)
    requires m.source in rows && m.source in db.wallets && rows[m.source] == db.wallets[m.source]
    requires m.destination in rows && m.destination in db.wallets && rows[m.destination] == db.wallets[m.destination]
    requires m.source != m.destination
    requires Vet(call.request, Original(db, call.request)) == Ok(m)
    requires GetTransaction(db.transactions, call.transactionId).None?
    ensures Apply(db, Script(call, m, Original(db, call.request), rows, arith)) == Post(db, call, m, arith)
  {
    hide Apply, Script, EventFor, Entries, Moved, FindTransaction;
    var original := Original(db, call.request);
    var row := NewTransaction(call, m);
    var event := EventFor(call.eventId, row);
    var (first, second) := WalletWrites(m, rows, arith);
    ScriptState(db, call, m, original, rows, arith);
    WalletWritesMeet(db.wallets, m, rows, arith);
    var start := if call.key == "" then db else ApplyWrite(db, InsertKey(SlotOf(call), call.request));
    var b := Db(db.wallets[first.id := first.wallet][second.id := second.wallet],
                db.transactions + [row], db.ledger + Entries(row, m), start.keys, db.outbox);
    var c := b.(transactions := PostRows(db.transactions, m.related, row));
    if original.Some? {
      MarkedState(b, db.transactions, row, call.request.transaction);
    }
    var d := c.(outbox := db.outbox + [event]);
    assert d == ApplyWrite(c, InsertOutbox(event));
    if call.key != "" {
      KeptResponse(d, db.keys, SlotOf(call), call.request, row);
    }
  }

  // ---------- Runs ----------

  // Every writer of the database. MarkPublished and RecordFailure are the outbox worker's.
  datatype DbOp =
    | Money(call: Call)
    | OpenWallet(id: Id)
    | SetStatus(id: Id, status: WalletStatus)
    | MarkPublished(place: nat)
    | RecordFailure(place: nat, message: string)

  function Step(db: Db, op: DbOp, arith: Arith): Db
  {
    match op
    case Money(call) => After(db, call, arith)
    case OpenWallet(id) => if id in db.wallets then db else db.(wallets := db.wallets[id := Wallet(Active, 0)])
    case SetStatus(id, status) =>
      if id in db.wallets then db.(wallets := db.wallets[id := db.wallets[id].(status := status)]) else db
    case MarkPublished(i) =>
      if i < |db.outbox|
      then db.(outbox := db.outbox[i := db.outbox[i].(status := OutboxPublished, lastError := None)])
      else db
    case RecordFailure(i, message) =>
      if i < |db.outbox|
      then db.(outbox := db.outbox[i := db.outbox[i].(
        status := OutboxPending, retries := db.outbox[i].retries + 1, lastError := Some(message))])
      else db
  }

  // The event id in a row's payload, as text.
  function EventText(event: OutboxRow): string
  {
    if event.payload.Object? && EventIdField in event.payload.fields && event.payload.fields[EventIdField].JsonText?
    then event.payload.fields[EventIdField].text
    else ""
  }

  // Random ids do not repeat.
  predicate Fresh(db: Db, call: Call)
  {
    GetTransaction(db.transactions, call.transactionId).None?
    && forall i | 0 <= i < |db.outbox| :: EventText(db.outbox[i]) != Uuid.Text(call.eventId)
  }

  predicate Legal(db: Db, op: DbOp)
  {
    op.Money? ==> ValidRequest(op.call.request) && Fresh(db, op.call)
  }

  function Run(db: Db, ops: seq<DbOp>, arith: Arith): Db
  {
    if ops == [] then db else Step(Run(db, ops[..|ops| - 1], arith), ops[|ops| - 1], arith)
  }

  predicate LegalRun(db: Db, ops: seq<DbOp>, arith: Arith)
  {
    ops == [] ||
    (LegalRun(db, ops[..|ops| - 1], arith) && Legal(Run(db, ops[..|ops| - 1], arith), ops[|ops| - 1]))
  }
}
