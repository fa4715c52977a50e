// The tables of the wallet service, one datatype per row type, and the database as a value.
module Model {
  import opened Wrappers
  import opened Uuid

  const MIN_INT64: int := -0x8000_0000_0000_0000
  const MAX_INT64: int := 0x7FFF_FFFF_FFFF_FFFF

  datatype WalletStatus = Active | Suspended | Closed

  datatype Wallet = Wallet(status: WalletStatus, balance: int)

  datatype UserStatus = UserActive | UserInactive

  datatype Kind = TopUp | Transfer | Reversal

  datatype TransactionStatus = Pending | Completed | Failed | Reversed

  type Metadata = map<string, string>

  datatype Transaction = Transaction(
    id: Id, kind: Kind, status: TransactionStatus, source: Option<Id>, destination: Option<Id>,
    amount: int, key: Option<string>, related: Option<Id>, metadata: Metadata)

  datatype EntryType = Debit | Credit

  datatype LedgerEntry = LedgerEntry(transaction: Id, wallet: Id, entryType: EntryType, amount: int)

  // The hash of a request is compared only with hashes of requests to the same endpoint;
  // with no collisions that is a comparison of requests.
  datatype Request =
    | TopUpRequest(wallet: Id, amount: int, metadata: Metadata)
    | TransferRequest(source: Id, destination: Id, amount: int, metadata: Metadata)
    | ReverseRequest(transaction: Id)

  datatype Endpoint = TopUpEndpoint | TransferEndpoint | ReverseEndpoint

  // The unique index of the idempotency table.
  datatype Slot = Slot(key: string, endpoint: Endpoint)

  // A stored or sent answer: the status code and the transaction it describes.
  datatype Response = Response(code: int, body: Transaction)

  datatype IdempotencyRecord = IdempotencyRecord(request: Request, response: Option<Response>, resource: Option<Id>)

  datatype Error =
    | Validation | NotFound | Conflict | IdempotencyConflict
    | InsufficientFunds | WalletNotActive | AlreadyReversed | Internal

  // ---------- Outbox ----------

  datatype Field =
    | EventIdField | EventTypeField | TransactionIdField | SourceField | DestinationField | AmountField | RelatedField

  datatype Json = JsonText(text: string) | JsonNumber(number: int)

  // Bytes of a payload column: an object with some fields, or no JSON at all.
  datatype Raw = Object(fields: map<Field, Json>) | Malformed

  datatype OutboxStatus = OutboxPending | OutboxPublished | OutboxFailed

  datatype OutboxRow = OutboxRow(
    aggregate: Id, eventType: string, payload: Raw, status: OutboxStatus, retries: nat, lastError: Option<string>)

  // ---------- Database ----------

  // The outbox is in order of creation; a row's place in it is its key.
  datatype Db = Db(
    wallets: map<Id, Wallet>, transactions: seq<Transaction>, ledger: seq<LedgerEntry>,
    keys: map<Slot, IdempotencyRecord>, outbox: seq<OutboxRow>)

  const SEEDED: Db := Db(map[SYSTEM_WALLET_ID := Wallet(Active, 0)], [], [], map[], [])

  // One API call, with the two fresh ids it draws.
  datatype Call = Call(request: Request, key: string, transactionId: Id, eventId: Id)

  function EndpointOf(request: Request): Endpoint
  {
    match request
    case TopUpRequest(_, _, _) => TopUpEndpoint
    case TransferRequest(_, _, _, _) => TransferEndpoint
    case ReverseRequest(_) => ReverseEndpoint
  }

  function EndpointOfKind(kind: Kind): Endpoint
  {
    match kind
    case TopUp => TopUpEndpoint
    case Transfer => TransferEndpoint
    case Reversal => ReverseEndpoint
  }

  function SlotOf(call: Call): Slot { Slot(call.key, EndpointOf(call.request)) }

  function OptionalString(value: string): Option<string>
  {
    if value == "" then None else Some(value)
  }

  // The place of the row with this primary key.
  function FindTransaction(rows: seq<Transaction>, id: Id): (place: Option<nat>)
    ensures place.Some? ==> place.value < |rows| && rows[place.value].id == id
    ensures place.None? ==> forall i | 0 <= i < |rows| :: rows[i].id != id
  {
    if rows == [] then None
    else if rows[|rows| - 1].id == id then Some(|rows| - 1)
    else FindTransaction(rows[..|rows| - 1], id)
  }

  function GetTransaction(rows: seq<Transaction>, id: Id): (row: Option<Transaction>)
    ensures row.Some? ==> row.value in rows && row.value.id == id
    ensures row.None? ==> forall i | 0 <= i < |rows| :: rows[i].id != id
  {
    match FindTransaction(rows, id)
    case Some(i) => Some(rows[i])
    case None => None
  }
}
