// How each request is answered and what a posting stores, said of the request and the tables alone.
module Decisions {
  import opened Wrappers
  import opened Uuid
  import opened Model
  import opened Engine
  import opened Books
  import opened Guarantees
  import opened Status

  // ---------- Answers ----------

  predicate IsActive(db: Db, id: Id)
  {
    id in db.wallets && db.wallets[id].status == Active
  }

  // Each answer to a top-up under an unused key, and exactly when it is given.
  lemma TopUpDecided(db: Db, call: Call)
    requires Reachable(db) && call.request.TopUpRequest? && KeyUnused(db, call)
    ensures var wallet := call.request.wallet;
            var reply := Answer(db, call);
            && (Decide(db, call).Posts? <==> wallet != SYSTEM_WALLET_ID && IsActive(db, wallet))
            && (reply.Ok? <==> Decide(db, call).Posts?)
            && (reply == Err(WalletNotActive)
                <==> wallet != SYSTEM_WALLET_ID && wallet in db.wallets && !IsActive(db, wallet))
            && (reply == Err(NotFound) <==> wallet == SYSTEM_WALLET_ID || wallet !in db.wallets)
  {
    hide Reachable, RowsOk;
    SystemTables(db);
    assert SYSTEM_WALLET_ID in db.wallets by { SystemIsThere(db); }
  }

  lemma SystemIsThere(db: Db)
    requires RowsOk(db.transactions, db.wallets)
    ensures SYSTEM_WALLET_ID in db.wallets
  {
  }

  // Each answer to a transfer between two wallets under an unused key, and exactly when it is given.
  lemma TransferDecided(db: Db, call: Call)
    requires call.request.TransferRequest? && call.request.source != call.request.destination && KeyUnused(db, call)
    ensures var (source, destination) := (call.request.source, call.request.destination);
            var there := source in db.wallets && destination in db.wallets;
            var active := IsActive(db, source) && IsActive(db, destination);
            var reply := Answer(db, call);
            && (Decide(db, call).Posts? <==> active && db.wallets[source].balance >= call.request.amount)
            && (reply.Ok? <==> Decide(db, call).Posts?)
            && (reply == Err(InsufficientFunds) <==> active && db.wallets[source].balance < call.request.amount)
            && (reply == Err(WalletNotActive) <==> there && !active)
            && (reply == Err(NotFound) <==> !there)
  {
  }

  // A transfer from a wallet to itself is refused whatever its key and the tables.
  lemma SelfTransferRefused(db: Db, call: Call)
    requires call.request.TransferRequest? && call.request.source == call.request.destination
    ensures Answer(db, call) == Err(Validation) && After(db, call, Unbounded) == db
  {
  }

  // Each answer to a reversal under an unused key, and exactly when it is given.
  lemma ReversalDecided(db: Db, call: Call)
    requires Reachable(db) && call.request.ReverseRequest? && KeyUnused(db, call)
    ensures var found := GetTransaction(db.transactions, call.request.transaction);
            var reply := Answer(db, call);
            && (reply.Ok? <==> Decide(db, call).Posts?)
            && (reply == Err(NotFound) <==> found.None?)
            && (reply == Err(AlreadyReversed) <==> found.Some? && found.value.status == Reversed)
            && (reply == Err(Validation) <==> found.Some? && found.value.kind == Reversal)
            && (found.Some? && found.value.kind != Reversal && found.value.status != Reversed ==>
                  var original := found.value;
                  && original.destination.Some? && original.destination.value in db.wallets
                  && var balance := db.wallets[original.destination.value].balance;
                     && (Decide(db, call).Posts? <==> balance >= original.amount)
                     && (reply == Err(InsufficientFunds) <==> balance < original.amount))
  {
    hide Reachable, GetTransaction;
    ReverseDecided(db, call);
    ReversedIsNoReversal(db, call.request.transaction);
    hide Judge;
  }

  lemma ReversedIsNoReversal(db: Db, id: Id)
    requires Reachable(db)
    ensures var found := GetTransaction(db.transactions, id);
            found.Some? ==> (found.value.status == Reversed || found.value.status == Completed)
                            && (found.value.status == Reversed ==> found.value.kind != Reversal)
  {
    hide Reachable, FindTransaction;
    SystemTables(db);
    var place := FindTransaction(db.transactions, id);
    if place.Some? { assert WellFormed(db.transactions[place.value], db.wallets); }
  }

  // ---------- What a posting stores and answers ----------

  function KeyColumn(key: string): Option<string>
  {
    if key == "" then None else Some(key)
  }

  predicate Stores(db: Db, call: Call, arith: Arith, row: Transaction)
  {
    var after := After(db, call, arith);
    |after.transactions| == |db.transactions| + 1 && after.transactions[|db.transactions|] == row
    && Answer(db, call) == Ok(Response(201, row))
  }

  lemma TopUpStores(db: Db, call: Call, arith: Arith)
    requires call.request.TopUpRequest? && Decide(db, call).Posts?
    ensures Stores(db, call, arith,
                   Transaction(call.transactionId, TopUp, Completed, Some(SYSTEM_WALLET_ID), Some(call.request.wallet),
                               call.request.amount, KeyColumn(call.key), None, call.request.metadata))
  {
    hide PostWallets, EventFor, Entries;
  }

  lemma TransferStores(db: Db, call: Call, arith: Arith)
    requires call.request.TransferRequest? && Decide(db, call).Posts?
    ensures Stores(db, call, arith,
                   Transaction(call.transactionId, Transfer, Completed, Some(call.request.source),
                               Some(call.request.destination), call.request.amount, KeyColumn(call.key), None,
                               call.request.metadata))
  {
    hide PostWallets, EventFor, Entries;
  }

  // A reversal stores the original's wallets the other way round, its amount and its metadata, and a
  // pointer to it.
  lemma ReversalStores(db: Db, call: Call, arith: Arith)
    requires call.request.ReverseRequest? && Decide(db, call).Posts?
    ensures var found := GetTransaction(db.transactions, call.request.transaction);
            && found.Some?
            && var original := found.value;
               Stores(db, call, arith,
                      Transaction(call.transactionId, Reversal, Completed, original.destination, original.source,
                                  original.amount, KeyColumn(call.key), Some(call.request.transaction),
                                  original.metadata))
  {
    hide PostWallets, EventFor, Entries, FindTransaction;
  }

  // A stored balance for an exact one: the same, or the int64 that is the same modulo 2^64.
  predicate Represents(balance: int, exact: int, arith: Arith)
  {
    match arith
    case Unbounded => balance == exact
    case Int64 => MIN_INT64 <= balance <= MAX_INT64 && (balance - exact) % 0x1_0000_0000_0000_0000 == 0
  }

  // The balances after a posting, from the row it stores: the amount leaves one wallet and reaches the
  // other, statuses stay, and every other wallet is as it was.
  lemma PostingMoves(db: Db, call: Call, arith: Arith)
    requires Decide(db, call).Posts?
    ensures var (before, after) := (db.wallets, After(db, call, arith).wallets);
            var row := Answer(db, call).value.body;
            && row.source.Some? && row.destination.Some? && row.source != row.destination
            && row.source.value in before && row.destination.value in before && after.Keys == before.Keys
            && (forall id | id in before :: after[id].status == before[id].status)
            && (forall id | id in before && Some(id) != row.source && Some(id) != row.destination ::
                  after[id] == before[id])
            && Represents(after[row.source.value].balance, before[row.source.value].balance - row.amount, arith)
            && Represents(after[row.destination.value].balance, before[row.destination.value].balance + row.amount,
                arith)
  {
    PostsApart(db, call);
    hide Decide, PostRows, PostKeys, Entries, EventFor, Wrap;
  }

  lemma PostsApart(db: Db, call: Call)
    requires Decide(db, call).Posts?
    ensures Decide(db, call).movement.source != Decide(db, call).movement.destination
  {
    hide GetTransaction;
  }

  // What is refused or replayed changes nothing.
  lemma RefusedChangesNothing(db: Db, call: Call, arith: Arith)
    requires !Decide(db, call).Posts?
    ensures After(db, call, arith) == db
  {
    hide Decide;
  }

  // ---------- Keys ----------

  predicate SameEndpoint(a: Request, b: Request)
  {
    (a.TopUpRequest? && b.TopUpRequest?) || (a.TransferRequest? && b.TransferRequest?)
    || (a.ReverseRequest? && b.ReverseRequest?)
  }

  // Keys are kept apart by endpoint: the three kinds of request never share a slot.
  lemma SameSlotIff(a: Call, b: Call)
    ensures SlotOf(a) == SlotOf(b) <==> a.key == b.key && SameEndpoint(a.request, b.request)
  {
  }

  // A stored transaction that took this key at this endpoint.
  predicate TookKey(row: Transaction, call: Call)
  {
    row.key == Some(call.key)
    && match call.request
       case TopUpRequest(_, _, _) => row.kind == TopUp
       case TransferRequest(_, _, _, _) => row.kind == Transfer
       case ReverseRequest(_) => row.kind == Reversal
  }

  lemma RecordOf(db: Db, call: Call) returns (i: nat)
    requires Reachable(db) && call.key != "" && SlotOf(call) in db.keys
    ensures i < |db.transactions| && TookKey(db.transactions[i], call)
    ensures var record := db.keys[SlotOf(call)];
            record.response == Some(Response(201, db.transactions[i].(status := Completed)))
            && (record.request == call.request <==> AskedFor(call.request, db.transactions[i]))
  {
    hide Reachable, FindTransaction;
    KeyTables(db);
    var record := db.keys[SlotOf(call)];
    assert Keeps(record, SlotOf(call), db.transactions);
    i := FindTransaction(db.transactions, record.response.value.body.id).value;
  }

  // The look-up finds something exactly when a stored transaction of the same kind carries the key.
  lemma LookupFindsIff(db: Db, call: Call)
    requires Reachable(db) && call.key != ""
    ensures Lookup(db.keys, call) != Miss
            <==> exists i :: 0 <= i < |db.transactions| && TookKey(db.transactions[i], call)
    ensures Lookup(db.keys, call) != Miss <==> SlotOf(call) in db.keys
  {
    hide Reachable, Keeps;
    if SlotOf(call) in db.keys {
      var i := RecordOf(db, call);
      RecordsAnswer(db, call);
    } else {
      KeyTables(db);
      forall i | 0 <= i < |db.transactions| ensures !TookKey(db.transactions[i], call) {
        assert Recorded(db.transactions[i], db.keys);
      }
    }
  }

  // A key that a stored transaction took answers the request which that transaction was made for with
  // that transaction as first stored, refuses every other request of the kind, and changes nothing.
  lemma ReplayDecided(db: Db, call: Call, i: nat)
    requires Reachable(db) && call.key != "" && !SelfTransfer(call.request)
    requires i < |db.transactions| && TookKey(db.transactions[i], call)
    ensures Answer(db, call)
         == if AskedFor(call.request, db.transactions[i])
            then Ok(Response(201, db.transactions[i].(status := Completed)))
            else Err(IdempotencyConflict)
    ensures After(db, call, Unbounded) == db
  {
    hide Reachable, Judge, TookKey, AskedFor;
    LookupFindsIff(db, call);
    var j := RecordOf(db, call);
    SameKeySameRow(db, call, i, j);
  }

  lemma SameKeySameRow(db: Db, call: Call, i: nat, j: nat)
    requires Reachable(db) && i < |db.transactions| && j < |db.transactions|
    requires TookKey(db.transactions[i], call) && TookKey(db.transactions[j], call)
    ensures i == j
  {
    hide Reachable;
    OneTransactionPerKey(db, i, j);
  }

  // ---------- Wallets ----------

  // A status update sets the status asked for over any other and leaves all else alone.
  lemma StatusIsSet(db: Db, id: Id, status: WalletStatus, arith: Arith)
    requires id in db.wallets
    ensures Step(db, SetStatus(id, status), arith)
         == Db(db.wallets[id := Wallet(status, db.wallets[id].balance)], db.transactions, db.ledger, db.keys, db.outbox)
  {
  }

  // Closed is no exception.
  lemma ClosedReopens(db: Db, id: Id, arith: Arith)
    requires id in db.wallets && db.wallets[id].status == Closed
    ensures Step(db, SetStatus(id, Active), arith).wallets[id] == Wallet(Active, db.wallets[id].balance)
  {
  }

  // A wallet is opened active and at zero, and no other is touched.
  lemma WalletIsOpened(db: Db, id: Id, arith: Arith)
    requires id !in db.wallets
    ensures Step(db, OpenWallet(id), arith)
         == Db(db.wallets[id := Wallet(Active, 0)], db.transactions, db.ledger, db.keys, db.outbox)
  {
  }
}
