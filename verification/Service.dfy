// The services, statement by statement, with a failure possible at every call they make: each call
// either does all that the engine says, or answers an internal error and leaves everything as it was.
module Service {
  import opened Wrappers
  import opened Uuid
  import opened Model
  import opened Events
  import opened Engine
  import opened Server
  import opened Repository

  // The database calls of a money movement.
  datatype DbCall =
    | GetRecordCall | InsertKeyCall | LockTransactionCall | LockWalletsCall | InsertTransactionCall
    | SaveFirstWalletCall | SaveSecondWalletCall | InsertLedgerCall | SaveOriginalCall | InsertOutboxCall
    | SaveResponseCall | CommitCall

  // What fails during one request: database calls, and cache writes by wallet.
  datatype Faults = Faults(database: set<DbCall>, refresh: set<Id>)

  // The database calls that a call makes once it has inserted its key.
  function CallsAfterKey(db: Db, call: Call): set<DbCall>
  {
    (if call.request.ReverseRequest? then {LockTransactionCall} else {})
    + match Vet(call.request, Original(db, call.request))
      case Err(_) => {}
      case Ok(m) =>
        {LockWalletsCall}
        + if Admit(m, db.wallets).Some? then {}
          else PostingCalls(call) + {CommitCall}
  }

  // The database calls of a posting after its checks.
  function PostingCalls(call: Call): (calls: set<DbCall>)
    ensures CommitCall !in calls
  {
    {InsertTransactionCall, SaveFirstWalletCall, SaveSecondWalletCall, InsertLedgerCall, InsertOutboxCall}
    + (if call.request.ReverseRequest? then {SaveOriginalCall} else {})
    + (if call.key == "" then {} else {SaveResponseCall})
  }

  // All database calls of a call, in the state it finds.
  function CallsOf(db: Db, call: Call): set<DbCall>
  {
    if SelfTransfer(call.request) then {}
    else if call.key == "" then CallsAfterKey(db, call)
    else
      {GetRecordCall}
      + if Lookup(db.keys, call) != Miss then {}
        else {InsertKeyCall} + if SlotOf(call) in db.keys then {} else CallsAfterKey(db, call)
  }

  // The whole outcome of a request: either everything the engine says, or nothing at all.
  ghost predicate Served(before: Db, cache: map<Id, int>, call: Call, faults: Faults,
                         after: Db, cache': map<Id, int>, reply: Result<Response, Error>)
  {
    if CallsOf(before, call) !! faults.database
    then after == After(before, call, Int64) && reply == Answer(before, call)
         && cache' == Refresh(cache, Touched(before, call, Int64), faults.refresh)
    else after == before && cache' == cache && reply == Err(Internal)
  }

  // What the body of the database transaction returns.
  datatype Posting = Posting(response: Response, touched: seq<(Id, int)>)

  function CallsBeforeCommit(db: Db, call: Call): set<DbCall>
  {
    (if call.key == "" then {} else {InsertKeyCall})
    + if call.key != "" && SlotOf(call) in db.keys then {} else CallsAfterKey(db, call) - {CommitCall}
  }

  // The outcome of the body, before the commit; on an error the tables are rolled back anyway.
  ghost predicate Booked(before: Db, call: Call, faults: set<DbCall>, after: Db, done: Result<Posting, Error>)
  {
    if CallsBeforeCommit(before, call) !! faults
    then
      if call.key != "" && SlotOf(call) in before.keys then done == Err(Conflict)
      else match Judge(before, call)
        case Rejects(error) => done == Err(error)
        case Replays(_) => false
        case Posts(m) =>
          after == Post(before, call, m, Int64)
          && done == Ok(Posting(Response(201, NewTransaction(call, m)), TouchedBy(before.wallets, m, Int64)))
    else done == Err(Internal)
  }

  function RowsOf(m: Movement, source: Wallet, destination: Wallet): map<Id, Wallet>
  {
    map[m.source := source, m.destination := destination]
  }

  // The statements so far and those that end every posting.
  ghost function Announced(call: Call, row: Transaction, eventType: string, trace: seq<Write>): seq<Write>
  {
    var announced := trace + [InsertOutbox(NewOutboxEvent(call.eventId, eventType, row))];
    if call.key == "" then announced else announced + [SaveResponse(SlotOf(call), Response(201, row), row.id)]
  }

  lemma ScriptWrote(before: Db, call: Call, m: Movement, source: Wallet, destination: Wallet, now: Db)
    requires Vet(call.request, Original(before, call.request)) == Ok(m) && m.source != m.destination
    requires StoredRow(before.wallets, m.source) == Some(source)
    requires StoredRow(before.wallets, m.destination) == Some(destination)
    requires GetTransaction(before.transactions, call.transactionId).None?
    requires now == Apply(before,
        Script(call, m, Original(before, call.request), RowsOf(m, source, destination), Int64))
    ensures now == Post(before, call, m, Int64)
    ensures TouchedBy(RowsOf(m, source, destination), m, Int64) == TouchedBy(before.wallets, m, Int64)
  {
    hide Vet, Apply, Script, Post, FindTransaction;
    ScriptPosts(before, call, m, RowsOf(m, source, destination), Int64);
  }

  lemma Opened(before: Db, call: Call)
    ensures Apply(before, if call.key == "" then [] else [InsertKey(SlotOf(call), call.request)])
         == if call.key == "" then before else ApplyWrite(before, InsertKey(SlotOf(call), call.request))
  {
    if call.key != "" {
      var write := InsertKey(SlotOf(call), call.request);
      assert [write][..0] == [];
    }
  }

  // The commit is called exactly for a posting.
  lemma CallsSplit(db: Db, call: Call)
    requires !SelfTransfer(call.request) && Lookup(db.keys, call) == Miss
    ensures CallsOf(db, call)
         == (if call.key == "" then {} else {GetRecordCall}) + CallsBeforeCommit(db, call)
            + if Decide(db, call).Posts? then {CommitCall} else {}
    ensures CommitCall !in CallsBeforeCommit(db, call)
  {
    hide FindTransaction, Lookup;
    CommitMatters(db, call);
    hide Judge, CallsAfterKey;
  }

  lemma CommitMatters(db: Db, call: Call)
    ensures CommitCall in CallsAfterKey(db, call) <==> Judge(db, call).Posts?
  {
    hide FindTransaction;
  }

  // The database calls of a call that is posted, one by one.
  lemma PostedCalls(db: Db, call: Call)
    requires Decide(db, call).Posts?
    ensures CallsOf(db, call)
         == {LockWalletsCall, InsertTransactionCall, SaveFirstWalletCall, SaveSecondWalletCall, InsertLedgerCall,
             InsertOutboxCall, CommitCall}
            + (if call.key == "" then {} else {GetRecordCall, InsertKeyCall, SaveResponseCall})
            + (if call.request.ReverseRequest? then {LockTransactionCall, SaveOriginalCall} else {})
  {
    hide GetTransaction;
  }

  class TransactionService {
    const db: Database
    const cache: BalanceCache

    constructor (db: Database, cache: BalanceCache)
      ensures this.db == db && this.cache == cache
    {
      this.db, this.cache := db, cache;
    }

    // ---------- Idempotency ----------

    method GetIdempotencyReplay(call: Call, fails: bool) returns (r: Result<Option<Response>, Error>)
      ensures if call.key != "" && fails then r == Err(Internal)
              else match Lookup(db.keys, call)
                case Miss => r == Ok(None)
                case Mismatch => r == Err(IdempotencyConflict)
                case Hit(response) => r == Ok(Some(response))
    {
      if call.key == "" { return Ok(None); }
      var ok, record := db.GetRecord(SlotOf(call), fails);
      if !ok { return Err(Internal); }
      if record.None? { return Ok(None); }
      if record.value.request != call.request { return Err(IdempotencyConflict); }
      return Ok(record.value.response);
    }

    method CreateIdempotencyRecord(call: Call, fails: bool) returns (error: Option<Error>)
      modifies db`keys
      ensures call.key == "" ==> error == None && db.View() == old(db.View())
      ensures call.key != "" ==>
                if fails then error == Some(Internal)
                else if SlotOf(call) in old(db.keys) then error == Some(Conflict)
                else error == None && db.View() == ApplyWrite(old(db.View()), InsertKey(SlotOf(call), call.request))
    {
      if call.key == "" { return None; }
      var ok, duplicate := db.InsertKey(SlotOf(call), call.request, fails);
      if duplicate { return Some(Conflict); }
      if !ok { return Some(Internal); }
      return None;
    }

    // ---------- Cache ----------

    method TouchedWallets(touched: seq<(Id, int)>, fails: set<Id>)
      modifies cache
      ensures cache.entries == Refresh(old(cache.entries), touched, fails)
    {
      var i := 0;
      assert touched[..0] == [];
      while i < |touched|
        invariant i <= |touched|
        invariant cache.entries == Refresh(old(cache.entries), touched[..i], fails)
      {
        assert touched[..i + 1][..i] == touched[..i];
        var _ := cache.Set(touched[i].0, touched[i].1, touched[i].0 in fails);
        i := i + 1;
      }
      assert touched[..i] == touched;
    }

    // ---------- Row lookup ----------

    method ResolveTopUpWallets(rows: seq<WalletRow>, destinationId: Id) returns (found: Option<(Wallet, Wallet)>)
      ensures var system, destination := LastRow(rows, SYSTEM_WALLET_ID), LastRow(rows, destinationId);
              found == if system.Some? && destination.Some? && destinationId != SYSTEM_WALLET_ID
                       then Some((system.value, destination.value)) else None
    {
      var system: Option<Wallet>, destination: Option<Wallet> := None, None;
      var i := 0;
      assert rows[..0] == [];
      while i < |rows|
        invariant i <= |rows|
        invariant system == LastRow(rows[..i], SYSTEM_WALLET_ID)
        invariant destination == if destinationId == SYSTEM_WALLET_ID then None else LastRow(rows[..i], destinationId)
      {
        assert rows[..i + 1][..i] == rows[..i];
        if rows[i].0 == SYSTEM_WALLET_ID {
          system := Some(rows[i].1);
        } else if rows[i].0 == destinationId {
          destination := Some(rows[i].1);
        }
        i := i + 1;
      }
      assert rows[..i] == rows;
      if system.None? || destination.None? { return None; }
      return Some((system.value, destination.value));
    }

    method ResolveTransferWallets(rows: seq<WalletRow>, sourceId: Id, destinationId: Id)
        returns (found: Option<(Wallet, Wallet)>)
      ensures var source, destination := LastRow(rows, sourceId), LastRow(rows, destinationId);
              found == if source.Some? && destination.Some? && sourceId != destinationId
                       then Some((source.value, destination.value)) else None
    {
      var source: Option<Wallet>, destination: Option<Wallet> := None, None;
      var i := 0;
      assert rows[..0] == [];
      while i < |rows|
        invariant i <= |rows|
        invariant source == LastRow(rows[..i], sourceId)
        invariant destination == if sourceId == destinationId then None else LastRow(rows[..i], destinationId)
      {
        assert rows[..i + 1][..i] == rows[..i];
        if rows[i].0 == sourceId {
          source := Some(rows[i].1);
        } else if rows[i].0 == destinationId {
          destination := Some(rows[i].1);
        }
        i := i + 1;
      }
      assert rows[..i] == rows;
      if source.None? || destination.None? { return None; }
      return Some((source.value, destination.value));
    }

    method LockTwo(a: Id, b: Id, fails: bool) returns (ok: bool, rows: seq<WalletRow>)
      ensures ok == !fails
      ensures ok ==> LastRow(rows, a) == StoredRow(db.wallets, a) && LastRow(rows, b) == StoredRow(db.wallets, b)
    {
      hide SortedByText, LastRow;
      var ids := new Id[2][a, b];
      assert ids[0] in ids[..] && ids[1] in ids[..];
      ok, rows := db.GetByIDsForUpdate(ids, fails);
    }

    // ---------- The end of every posting ----------

    // The event, and the response kept under the key.
    method Announce(call: Call, row: Transaction, eventType: string, ghost before: Db, ghost trace: seq<Write>,
        faults: set<DbCall>) returns (ok: bool)
      requires db.View() == Apply(before, trace)
      modifies db
      ensures ok == (InsertOutboxCall !in faults && (call.key == "" || SaveResponseCall !in faults))
      ensures ok ==> db.View() == Apply(before, Announced(call, row, eventType, trace))
    {
      hide Apply, ApplyWrite, NewOutboxEvent;
      var event := NewOutboxEvent(call.eventId, eventType, row);
      ok := db.InsertOutbox(event, InsertOutboxCall in faults);
      if !ok { return false; }
      ApplyNext(before, trace, InsertOutbox(event));
      if call.key == "" { return true; }
      ok := db.SaveResponse(SlotOf(call), Response(201, row), row.id, SaveResponseCall in faults);
      ApplyNext(before, trace + [InsertOutbox(event)], SaveResponse(SlotOf(call), Response(201, row), row.id));
    }

    // ---------- Top-up ----------

    // The statements of a top-up whose checks have passed.
    method PostTopUp(call: Call, system: Wallet, destination: Wallet, ghost before: Db, ghost opening: seq<Write>,
        faults: set<DbCall>)
      returns (done: Result<Posting, Error>)
      requires call.request.TopUpRequest? && call.request.wallet != SYSTEM_WALLET_ID
          && db.View() == Apply(before, opening)
      requires opening == if call.key == "" then [] else [InsertKey(SlotOf(call), call.request)]
      modifies db
      ensures var m := Movement(Kind.TopUp, SYSTEM_WALLET_ID, call.request.wallet, call.request.amount, None,
          call.request.metadata);
              var rows := RowsOf(m, system, destination);
              if PostingCalls(call) !! faults
              then
                db.View() == Apply(before, Script(call, m, None, rows, Int64))
                && done == Ok(Posting(Response(201, NewTransaction(call, m)), TouchedBy(rows, m, Int64)))
              else done == Err(Internal)
    {
      hide FindTransaction, Apply, Wrap, NewOutboxEvent, ApplyWrite;
      var request := call.request;
      var row := Transaction(call.transactionId, Kind.TopUp, Completed, Some(SYSTEM_WALLET_ID), Some(request.wallet),
                             request.amount, OptionalString(call.key), None, request.metadata);
      ghost var trace := opening + [InsertTransaction(row)];
      var ok := db.InsertTransaction(row, InsertTransactionCall in faults);
      if !ok { return Err(Internal); }
      ApplyNext(before, opening, InsertTransaction(row));

      var system' := system.(balance := Wrap(system.balance - request.amount));
      var destination' := destination.(balance := Wrap(destination.balance + request.amount));
      ok := db.SaveWallet(SYSTEM_WALLET_ID, system', SaveFirstWalletCall in faults);
      if !ok { return Err(Internal); }
      ApplyNext(before, trace, SaveWallet(SYSTEM_WALLET_ID, system'));
      trace := trace + [SaveWallet(SYSTEM_WALLET_ID, system')];
      ok := db.SaveWallet(request.wallet, destination', SaveSecondWalletCall in faults);
      if !ok { return Err(Internal); }
      ApplyNext(before, trace, SaveWallet(request.wallet, destination'));
      trace := trace + [SaveWallet(request.wallet, destination')];

      var entries := [LedgerEntry(row.id, SYSTEM_WALLET_ID, Debit, request.amount),
                      LedgerEntry(row.id, request.wallet, Credit, request.amount)];
      ok := db.InsertLedger(entries, InsertLedgerCall in faults);
      if !ok { return Err(Internal); }
      ApplyNext(before, trace, InsertLedger(entries));
      trace := trace + [InsertLedger(entries)];

      ok := Announce(call, row, TRANSACTION_COMPLETED, before, trace, faults);
      if !ok { return Err(Internal); }
      var touched := [(SYSTEM_WALLET_ID, system'.balance), (request.wallet, destination'.balance)];
      return Ok(Posting(Response(201, row), touched));
    }

    method BookTopUp(call: Call, faults: set<DbCall>) returns (done: Result<Posting, Error>)
      requires call.request.TopUpRequest? && GetTransaction(db.transactions, call.transactionId).None?
      modifies db
      ensures Booked(old(db.View()), call, faults, db.View(), done)
    {
      hide FindTransaction, LastRow, Script, Post, TouchedBy, NewTransaction, PostingCalls;
      var request := call.request;
      ghost var before := db.View();

      var refused := CreateIdempotencyRecord(call, InsertKeyCall in faults);
      if refused.Some? { return Err(refused.value); }

      var ok, rows := LockTwo(SYSTEM_WALLET_ID, request.wallet, LockWalletsCall in faults);
      if !ok { return Err(Internal); }
      var found := ResolveTopUpWallets(rows, request.wallet);
      if found.None? { return Err(NotFound); }
      var (system, destination) := found.value;
      if destination.status != Active { return Err(WalletNotActive); }

      ghost var m := Vet(request, None).value;
      ghost var opening := if call.key == "" then [] else [InsertKey(SlotOf(call), request)];
      Opened(before, call);
      done := PostTopUp(call, system, destination, before, opening, faults);
      if done.Ok? { ScriptWrote(before, call, m, system, destination, db.View()); }
    }

    // ---------- Transfer ----------

    // The statements of a transfer whose checks have passed.
    method PostTransfer(call: Call, source: Wallet, destination: Wallet, ghost before: Db, ghost opening: seq<Write>,
        faults: set<DbCall>)
      returns (done: Result<Posting, Error>)
      requires call.request.TransferRequest? && !SelfTransfer(call.request) && db.View() == Apply(before, opening)
      requires opening == if call.key == "" then [] else [InsertKey(SlotOf(call), call.request)]
      modifies db
      ensures var m := Movement(Kind.Transfer, call.request.source, call.request.destination, call.request.amount,
          None, call.request.metadata);
              var rows := RowsOf(m, source, destination);
              if PostingCalls(call) !! faults
              then
                db.View() == Apply(before, Script(call, m, None, rows, Int64))
                && done == Ok(Posting(Response(201, NewTransaction(call, m)), TouchedBy(rows, m, Int64)))
              else done == Err(Internal)
    {
      hide FindTransaction, Apply, Wrap, NewOutboxEvent, ApplyWrite;
      var request := call.request;
      var row := Transaction(call.transactionId, Kind.Transfer, Completed, Some(request.source),
          Some(request.destination),
                             request.amount, OptionalString(call.key), None, request.metadata);
      ghost var trace := opening + [InsertTransaction(row)];
      var ok := db.InsertTransaction(row, InsertTransactionCall in faults);
      if !ok { return Err(Internal); }
      ApplyNext(before, opening, InsertTransaction(row));

      var source' := source.(balance := Wrap(source.balance - request.amount));
      var destination' := destination.(balance := Wrap(destination.balance + request.amount));
      ok := db.SaveWallet(request.source, source', SaveFirstWalletCall in faults);
      if !ok { return Err(Internal); }
      ApplyNext(before, trace, SaveWallet(request.source, source'));
      trace := trace + [SaveWallet(request.source, source')];
      ok := db.SaveWallet(request.destination, destination', SaveSecondWalletCall in faults);
      if !ok { return Err(Internal); }
      ApplyNext(before, trace, SaveWallet(request.destination, destination'));
      trace := trace + [SaveWallet(request.destination, destination')];

      var entries := [LedgerEntry(row.id, request.source, Debit, request.amount),
                      LedgerEntry(row.id, request.destination, Credit, request.amount)];
      ok := db.InsertLedger(entries, InsertLedgerCall in faults);
      if !ok { return Err(Internal); }
      ApplyNext(before, trace, InsertLedger(entries));
      trace := trace + [InsertLedger(entries)];

      ok := Announce(call, row, TRANSACTION_COMPLETED, before, trace, faults);
      if !ok { return Err(Internal); }
      var touched := [(request.source, source'.balance), (request.destination, destination'.balance)];
      return Ok(Posting(Response(201, row), touched));
    }

    method BookTransfer(call: Call, faults: set<DbCall>) returns (done: Result<Posting, Error>)
      requires call.request.TransferRequest? && !SelfTransfer(call.request)
      requires GetTransaction(db.transactions, call.transactionId).None?
      modifies db
      ensures Booked(old(db.View()), call, faults, db.View(), done)
    {
      hide FindTransaction, LastRow, Script, Post, TouchedBy, NewTransaction, PostingCalls;
      var request := call.request;
      ghost var before := db.View();

      var refused := CreateIdempotencyRecord(call, InsertKeyCall in faults);
      if refused.Some? { return Err(refused.value); }

      var ok, rows := LockTwo(request.source, request.destination, LockWalletsCall in faults);
      if !ok { return Err(Internal); }
      var found := ResolveTransferWallets(rows, request.source, request.destination);
      if found.None? { return Err(NotFound); }
      var (source, destination) := found.value;
      if source.status != Active || destination.status != Active { return Err(WalletNotActive); }
      if source.balance < request.amount { return Err(InsufficientFunds); }

      ghost var m := Vet(request, None).value;
      ghost var opening := if call.key == "" then [] else [InsertKey(SlotOf(call), request)];
      Opened(before, call);
      done := PostTransfer(call, source, destination, before, opening, faults);
      if done.Ok? { ScriptWrote(before, call, m, source, destination, db.View()); }
    }

    // ---------- Reversal ----------

    // The script of a reversal, written out.
    lemma ReversalText(call: Call, original: Transaction, m: Movement, source: Wallet, destination: Wallet,
        opening: seq<Write>)
      requires original.source.Some? && original.destination.Some? && original.source != original.destination
      requires call.request.ReverseRequest?
      requires opening == if call.key == "" then [] else [InsertKey(SlotOf(call), call.request)]
      requires m == Movement(Reversal, original.destination.value, original.source.value, original.amount,
                             Some(original.id), original.metadata)
      ensures var rows, row := RowsOf(m, destination, source), NewTransaction(call, m);
              var destination' := destination.(balance := Wrap(destination.balance - original.amount));
              var source' := source.(balance := Wrap(source.balance + original.amount));
              && TouchedBy(rows, m, Int64) == [(m.destination, source'.balance), (m.source, destination'.balance)]
              && Script(call, m, Some(original), rows, Int64)
                 == Announced(call, row, TRANSACTION_REVERSED,
                              opening + [InsertTransaction(row)]
                              + [SaveWallet(m.destination, source')] + [SaveWallet(m.source, destination')]
                              + [InsertLedger([LedgerEntry(row.id, m.source, Debit, original.amount),
                                               LedgerEntry(row.id, m.destination, Credit, original.amount)])]
                              + [SaveTransaction(original.(status := Reversed))])
    {
      hide Wrap, NewOutboxEvent;
    }


    // The statements of a reversal whose checks have passed; source and destination are the original's.
    method PostReversal(call: Call, original: Transaction, source: Wallet, destination: Wallet, ghost before: Db,
        ghost opening: seq<Write>, faults: set<DbCall>)
      returns (done: Result<Posting, Error>)
      requires call.request.ReverseRequest? && db.View() == Apply(before, opening)
      requires original.source.Some? && original.destination.Some? && original.source != original.destination
      requires opening == if call.key == "" then [] else [InsertKey(SlotOf(call), call.request)]
      modifies db
      ensures var m := Movement(Reversal, original.destination.value, original.source.value, original.amount,
          Some(original.id), original.metadata);
              var rows := RowsOf(m, destination, source);
              if PostingCalls(call) !! faults
              then
                db.View() == Apply(before, Script(call, m, Some(original), rows, Int64))
                && done == Ok(Posting(Response(201, NewTransaction(call, m)), TouchedBy(rows, m, Int64)))
              else done == Err(Internal)
    {
      hide FindTransaction, Apply, Wrap, NewOutboxEvent, ApplyWrite;
      var (sourceId, destinationId) := (original.source.value, original.destination.value);
      var row := Transaction(call.transactionId, Reversal, Completed, Some(destinationId), Some(sourceId),
                             original.amount, OptionalString(call.key), Some(original.id), original.metadata);
      ghost var m := Movement(Reversal, destinationId, sourceId, original.amount, Some(original.id), original.metadata);
      assert row == NewTransaction(call, m);
      ReversalText(call, original, m, source, destination, opening);
      hide Script, TouchedBy, NewTransaction, RowsOf, Announced;
      ghost var trace := opening + [InsertTransaction(row)];
      var ok := db.InsertTransaction(row, InsertTransactionCall in faults);
      if !ok { return Err(Internal); }
      ApplyNext(before, opening, InsertTransaction(row));

      var destination' := destination.(balance := Wrap(destination.balance - original.amount));
      var source' := source.(balance := Wrap(source.balance + original.amount));
      ok := db.SaveWallet(sourceId, source', SaveFirstWalletCall in faults);
      if !ok { return Err(Internal); }
      ApplyNext(before, trace, SaveWallet(sourceId, source'));
      trace := trace + [SaveWallet(sourceId, source')];
      ok := db.SaveWallet(destinationId, destination', SaveSecondWalletCall in faults);
      if !ok { return Err(Internal); }
      ApplyNext(before, trace, SaveWallet(destinationId, destination'));
      trace := trace + [SaveWallet(destinationId, destination')];

      var entries := [LedgerEntry(row.id, destinationId, Debit, original.amount),
                      LedgerEntry(row.id, sourceId, Credit, original.amount)];
      ok := db.InsertLedger(entries, InsertLedgerCall in faults);
      if !ok { return Err(Internal); }
      ApplyNext(before, trace, InsertLedger(entries));
      trace := trace + [InsertLedger(entries)];

      var marked := original.(status := Reversed);
      ok := db.SaveTransaction(marked, SaveOriginalCall in faults);
      if !ok { return Err(Internal); }
      ApplyNext(before, trace, SaveTransaction(marked));
      trace := trace + [SaveTransaction(marked)];

      ok := Announce(call, row, TRANSACTION_REVERSED, before, trace, faults);
      if !ok { return Err(Internal); }
      var touched := [(sourceId, source'.balance), (destinationId, destination'.balance)];
      return Ok(Posting(Response(201, row), touched));
    }

    method BookReversal(call: Call, faults: set<DbCall>) returns (done: Result<Posting, Error>)
      requires call.request.ReverseRequest? && GetTransaction(db.transactions, call.transactionId).None?
      modifies db
      ensures Booked(old(db.View()), call, faults, db.View(), done)
    {
      hide FindTransaction, LastRow, Script, Post, TouchedBy, NewTransaction, PostingCalls;
      var request := call.request;
      ghost var before := db.View();

      var refused := CreateIdempotencyRecord(call, InsertKeyCall in faults);
      if refused.Some? { return Err(refused.value); }

      var ok, locked := db.GetByIDForUpdate(request.transaction, LockTransactionCall in faults);
      if !ok { return Err(Internal); }
      if locked.None? { return Err(NotFound); }
      var original := locked.value;
      if original.status == Reversed { return Err(AlreadyReversed); }
      if original.kind != Kind.TopUp && original.kind != Kind.Transfer { return Err(Validation); }
      if original.source.None? || original.destination.None? { return Err(Validation); }

      var (sourceId, destinationId) := (original.source.value, original.destination.value);
      var read, rows := LockTwo(sourceId, destinationId, LockWalletsCall in faults);
      if !read { return Err(Internal); }
      var found := ResolveTransferWallets(rows, sourceId, destinationId);
      if found.None? { return Err(NotFound); }
      var (source, destination) := found.value;
      if destination.balance < original.amount { return Err(InsufficientFunds); }

      ghost var m := Vet(request, Some(original)).value;
      ghost var opening := if call.key == "" then [] else [InsertKey(SlotOf(call), request)];
      Opened(before, call);
      done := PostReversal(call, original, source, destination, before, opening, faults);
      if done.Ok? { ScriptWrote(before, call, m, destination, source, db.View()); }
    }

    // ---------- Requests ----------

    // Commits a booked call and tells the cache, or takes everything back.
    method Finish(call: Call, saved: Db, done: Result<Posting, Error>, faults: Faults)
        returns (reply: Result<Response, Error>)
      requires !SelfTransfer(call.request) && Lookup(saved.keys, call) == Miss
      requires call.key != "" ==> GetRecordCall !in faults.database
      requires Booked(saved, call, faults.database, db.View(), done)
      modifies db, cache
      ensures Served(saved, old(cache.entries), call, faults, db.View(), cache.entries, reply)
    {
      hide FindTransaction, Lookup, Judge, Post, TouchedBy, Refresh, NewTransaction, CallsOf, CallsBeforeCommit,
          CallsAfterKey;
      CallsSplit(saved, call);
      NothingToRefresh(cache.entries, faults.refresh);
      if done.Err? || CommitCall in faults.database {
        db.Rollback(saved);
        return Err(if done.Err? then done.error else Internal);
      }
      TouchedWallets(done.value.touched, faults.refresh);
      return Ok(done.value.response);
    }

    method TopUp(wallet: Id, amount: int, metadata: Metadata, key: string, transactionId: Id, eventId: Id,
        faults: Faults)
      returns (reply: Result<Response, Error>)
      requires GetTransaction(db.transactions, transactionId).None?
      modifies db, cache
      ensures Served(old(db.View()), old(cache.entries),
                     Call(TopUpRequest(wallet, amount, metadata), key, transactionId, eventId), faults,
                     db.View(), cache.entries, reply)
    {
      hide FindTransaction, Judge, Post, CallsAfterKey, Booked;
      var call := Call(TopUpRequest(wallet, amount, metadata), key, transactionId, eventId);
      var replay := GetIdempotencyReplay(call, GetRecordCall in faults.database);
      match replay {
        case Err(error) => return Err(error);
        case Ok(Some(response)) => return Ok(response);
        case Ok(None) =>
      }
      var saved := db.View();
      var done := BookTopUp(call, faults.database);
      reply := Finish(call, saved, done, faults);
    }

    method Transfer(source: Id, destination: Id, amount: int, metadata: Metadata, key: string, transactionId: Id,
        eventId: Id, faults: Faults)
      returns (reply: Result<Response, Error>)
      requires GetTransaction(db.transactions, transactionId).None?
      modifies db, cache
      ensures Served(old(db.View()), old(cache.entries),
                     Call(TransferRequest(source, destination, amount, metadata), key, transactionId, eventId), faults,
                     db.View(), cache.entries, reply)
    {
      hide FindTransaction, Judge, Post, CallsAfterKey, Booked;
      if source == destination { return Err(Validation); }
      var call := Call(TransferRequest(source, destination, amount, metadata), key, transactionId, eventId);
      var replay := GetIdempotencyReplay(call, GetRecordCall in faults.database);
      match replay {
        case Err(error) => return Err(error);
        case Ok(Some(response)) => return Ok(response);
        case Ok(None) =>
      }
      var saved := db.View();
      var done := BookTransfer(call, faults.database);
      reply := Finish(call, saved, done, faults);
    }

    method Reverse(transaction: Id, key: string, transactionId: Id, eventId: Id, faults: Faults)
      returns (reply: Result<Response, Error>)
      requires GetTransaction(db.transactions, transactionId).None?
      modifies db, cache
      ensures Served(old(db.View()), old(cache.entries),
                     Call(ReverseRequest(transaction), key, transactionId, eventId), faults,
                     db.View(), cache.entries, reply)
    {
      hide FindTransaction, Judge, Post, CallsAfterKey, Booked;
      var call := Call(ReverseRequest(transaction), key, transactionId, eventId);
      var replay := GetIdempotencyReplay(call, GetRecordCall in faults.database);
      match replay {
        case Err(error) => return Err(error);
        case Ok(Some(response)) => return Ok(response);
        case Ok(None) =>
      }
      var saved := db.View();
      var done := BookReversal(call, faults.database);
      reply := Finish(call, saved, done, faults);
    }
  }

  // ---------- What a failure means ----------

  // After an internal error the same request, sent again with nothing failing, is served as if the
  // first had never been made: nothing was left behind, and its key is free.
  lemma FailedCallCanBeRetried(before: Db, cache: map<Id, int>, call: Call, faults: Faults, again: Call, calm: Faults,
                               mid: Db, cache1: map<Id, int>, reply1: Result<Response, Error>,
                               after: Db, cache2: map<Id, int>, reply2: Result<Response, Error>)
    requires Served(before, cache, call, faults, mid, cache1, reply1) && reply1 == Err(Internal)
    requires Served(mid, cache1, again, calm, after, cache2, reply2) && calm.database == {}
    requires again.request == call.request && again.key == call.key
    ensures after == After(before, again, Int64) && reply2 == Answer(before, again)
  {
    hide FindTransaction, Post;
  }

  class WalletService {
    const db: Database
    const cache: BalanceCache

    constructor (db: Database, cache: BalanceCache)
      ensures this.db == db && this.cache == cache
    {
      this.db, this.cache := db, cache;
    }

    // Opens a wallet at zero under a fresh id, for an active user who has none.
    method Create(user: Id, id: Id, userFails: bool, insertFails: bool) returns (r: Result<Id, Error>)
      requires id !in db.wallets
      modifies db`wallets, db`owners
      ensures r == if userFails then Err(Internal)
                   else if user !in db.users then Err(NotFound)
                   else if db.users[user] != UserActive then Err(Validation)
                   else if insertFails then Err(Internal)
                   else if user in old(db.owners) then Err(Conflict)
                   else Ok(id)
      ensures db.View() == if r.Ok? then Step(old(db.View()), OpenWallet(id), Int64) else old(db.View())
      ensures r.Ok? ==> db.wallets == old(db.wallets)[id := Wallet(Active, 0)]
      ensures db.owners == if r.Ok? then old(db.owners)[user := id] else old(db.owners)
    {
      var ok, status := db.GetUser(user, userFails);
      if !ok { return Err(Internal); }
      if status.None? { return Err(NotFound); }
      if status.value != UserActive { return Err(Validation); }
      var inserted, duplicate := db.InsertWallet(user, id, Wallet(Active, 0), insertFails);
      if duplicate { return Err(Conflict); }
      if !inserted { return Err(Internal); }
      return Ok(id);
    }

    // The cached balance of a wallet that exists, or else the stored one, which then primes the cache.
    method GetBalance(id: Id, readFails: bool, getFails: bool, setFails: bool) returns (balance: Result<int, Error>)
      modifies cache
      ensures if readFails then balance == Err(Internal) && cache.entries == old(cache.entries)
              else var (s, reply) := Serve(State(db.View(), old(cache.entries)), ReadBalance(id, getFails, setFails),
                  Int64);
                   State(db.View(), cache.entries) == s && reply == Balance(balance)
      ensures !readFails ==>
                var hit := !getFails && id in old(cache.entries);
                if id !in db.wallets then balance == Err(NotFound) && cache.entries == old(cache.entries)
                else if hit then balance == Ok(old(cache.entries)[id]) && cache.entries == old(cache.entries)
                else balance == Ok(db.wallets[id].balance)
                     && cache.entries == if setFails then old(cache.entries)
                                         else old(cache.entries)[id := db.wallets[id].balance]
    {
      if readFails { return Err(Internal); }
      if id !in db.wallets { return Err(NotFound); }
      var wallet := db.wallets[id];
      var ok, found := cache.Get(id, getFails);
      if ok && found.Some? { return Ok(found.value); }
      var _ := cache.Set(id, wallet.balance, setFails);
      return Ok(wallet.balance);
    }

    // Sets any status on a wallet, whatever its status was, and saves the row.
    method UpdateStatus(id: Id, status: WalletStatus, readFails: bool, saveFails: bool)
        returns (r: Result<Wallet, Error>)
      modifies db
      ensures if readFails || (id in old(db.wallets) && saveFails)
              then r == Err(Internal) && db.View() == old(db.View())
              else db.View() == Step(old(db.View()), SetStatus(id, status), Int64)
                   && r == if id in old(db.wallets) then Ok(db.wallets[id]) else Err(NotFound)
      ensures r.Ok? ==> id in old(db.wallets)
                        && r.value == Wallet(status, old(db.wallets)[id].balance)
                        && db.wallets == old(db.wallets)[id := Wallet(status, old(db.wallets)[id].balance)]
      ensures unchanged(db`transactions, db`ledger, db`keys, db`outbox)
    {
      if readFails { return Err(Internal); }
      if id !in db.wallets { return Err(NotFound); }
      var wallet := db.wallets[id].(status := status);
      var ok := db.SaveWallet(id, wallet, saveFails);
      if !ok { return Err(Internal); }
      return Ok(wallet);
    }
  }
}
