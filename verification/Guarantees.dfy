// What the books promise after any run, in the words of the service.
module Guarantees {
  import opened Wrappers
  import opened Uuid
  import opened Model
  import opened Events
  import opened Engine
  import opened Sums
  import opened Books

  // ---------- Balances ----------

  // A wallet's balance is its credits minus its debits, and is what it would be had the reversed
  // transactions and their reversals never run.
  lemma BalanceExplained(db: Db, id: Id)
    requires Reachable(db) && id in db.wallets
    ensures db.wallets[id].balance == LedgerNet(db.ledger, id)
    ensures db.wallets[id].balance == Sum(db.transactions, LiveMoves(id))
  {
    hide Reachable;
    ReachableIsSound(db);
  }

  // Money is conserved, and only the system wallet can be in debt.
  lemma MoneyConserved(db: Db)
    requires Reachable(db)
    ensures Total(db.wallets) == 0
    ensures SYSTEM_WALLET_ID in db.wallets && db.wallets[SYSTEM_WALLET_ID].balance <= 0
    ensures forall id | id in db.wallets && id != SYSTEM_WALLET_ID ::
              0 <= db.wallets[id].balance <= -db.wallets[SYSTEM_WALLET_ID].balance
  {
    hide Total, Reachable;
    ReachableIsSound(db);
    SystemOwes(db.wallets);
  }

  lemma SystemTables(db: Db)
    requires Reachable(db)
    ensures RowsOk(db.transactions, db.wallets) && db.wallets[SYSTEM_WALLET_ID].balance <= 0
  {
    hide Reachable, Total;
    ReachableIsSound(db);
    SystemOwes(db.wallets);
  }

  // Nothing leaves the system wallet but top-ups.
  lemma NoTransferFromSystem(db: Db, call: Call)
    requires Reachable(db) && ValidRequest(call.request)
    requires call.request.TransferRequest? && call.request.source == SYSTEM_WALLET_ID
    ensures !Decide(db, call).Posts?
  {
    hide Reachable, RowsOk;
    SystemTables(db);
  }

  // A transfer into the system wallet can never be taken back.
  lemma NoReversalIntoSystem(db: Db, call: Call)
    requires Reachable(db) && call.request.ReverseRequest? && Original(db, call.request).Some?
    requires var original := Original(db, call.request).value;
             original.destination == Some(SYSTEM_WALLET_ID) && original.kind != Reversal
    ensures Judge(db, call) == Rejects(InsufficientFunds)
  {
    hide Reachable, FindTransaction;
    SystemTables(db);
    var i := FindTransaction(db.transactions, call.request.transaction).value;
    assert WellFormed(db.transactions[i], db.wallets);
  }

  // A top-up of the system wallet itself is answered as if the wallet did not exist.
  lemma NoTopUpOfSystem(db: Db, call: Call)
    requires call.request.TopUpRequest?
    ensures call.request.wallet == SYSTEM_WALLET_ID ==> Judge(db, call) == Rejects(NotFound)
    ensures SYSTEM_WALLET_ID in db.wallets && Judge(db, call) == Rejects(NotFound)
            ==> call.request.wallet == SYSTEM_WALLET_ID || call.request.wallet !in db.wallets
  {
  }

  // ---------- Idempotency keys ----------

  lemma KeyTables(db: Db)
    requires Reachable(db)
    ensures KeysOk(db.keys, db.transactions) && IdsDistinct(db.transactions)
  {
    hide Reachable, KeysOk, IdsDistinct;
    ReachableIsSound(db);
  }

  // However often a key is sent to an endpoint, at most one transaction carries it.
  lemma OneTransactionPerKey(db: Db, i: nat, j: nat)
    requires Reachable(db) && i < |db.transactions| && j < |db.transactions|
    requires db.transactions[i].key.Some? && db.transactions[i].key == db.transactions[j].key
    requires EndpointOfKind(db.transactions[i].kind) == EndpointOfKind(db.transactions[j].kind)
    ensures i == j
  {
    hide Reachable, Keeps;
    KeyTables(db);
    assert Recorded(db.transactions[i], db.keys) && Recorded(db.transactions[j], db.keys);
  }

  // A stored record always answers: the look-up never falls through to a second insertion.
  lemma RecordsAnswer(db: Db, call: Call)
    requires Reachable(db) && call.key != "" && SlotOf(call) in db.keys
    ensures Lookup(db.keys, call) != Miss && Decide(db, call) != Rejects(Conflict)
  {
    hide Reachable, FindTransaction, Judge;
    KeyTables(db);
    assert Keeps(db.keys[SlotOf(call)], SlotOf(call), db.transactions);
  }

  // The record holds the id of its own transaction, and that transaction as it was first sent.
  lemma RecordsKeepTheirTransaction(db: Db, slot: Slot)
    requires Reachable(db) && slot in db.keys
    ensures var record := db.keys[slot];
            exists i :: 0 <= i < |db.transactions|
              && record.resource == Some(db.transactions[i].id)
              && record.response == Some(Response(201, db.transactions[i].(status := Completed)))
  {
    hide Reachable, FindTransaction;
    KeyTables(db);
    assert Keeps(db.keys[slot], slot, db.transactions);
    var i := FindTransaction(db.transactions, db.keys[slot].response.value.body.id).value;
    assert db.keys[slot].resource == Some(db.transactions[i].id);
  }

  // ---------- Reversals ----------

  function ReversalsOf(rows: seq<Transaction>, id: Id): set<nat>
  {
    set i: nat | i < |rows| && rows[i].related == Some(id)
  }

  lemma ReversalTables(db: Db)
    requires Reachable(db)
    ensures ReversalsMatch(db.transactions) && IdsDistinct(db.transactions) && RowsOk(db.transactions, db.wallets)
  {
    hide Reachable, ReversalsMatch, IdsDistinct, RowsOk;
    ReachableIsSound(db);
  }

  lemma ReversalOf(db: Db, i: nat, j: nat)
    requires ReversalsMatch(db.transactions) && IdsDistinct(db.transactions) && RowsOk(db.transactions, db.wallets)
    requires i < |db.transactions| && j < |db.transactions|
    requires db.transactions[i].related == Some(db.transactions[j].id)
    ensures Undoes(db.transactions[i], db.transactions[j]) && db.transactions[j].status == Reversed
    ensures ReversalsOf(db.transactions, db.transactions[j].id) == {i}
  {
    hide HasReversal;
    var rows := db.transactions;
    assert WellFormed(rows[i], db.wallets) && HasOriginal(rows, i);
    var k :| 0 <= k < i && Undoes(rows[i], rows[k]) && rows[k].status == Reversed;
    assert k == j;
    hide HasOriginal;
    forall other: nat | other < |rows| && rows[other].related == Some(rows[j].id) ensures other == i { }
  }

  // A transaction is marked reversed exactly when one and only one reversal points to it, and that
  // one moves the same amount back; no reversal is ever reversed.
  lemma ReversedOnce(db: Db, j: nat)
    requires Reachable(db) && j < |db.transactions|
    ensures var rows := db.transactions;
            var reversals := ReversalsOf(rows, rows[j].id);
            && (rows[j].status == Reversed <==> |reversals| == 1)
            && (rows[j].status != Reversed <==> reversals == {})
            && (forall i | i in reversals :: Undoes(rows[i], rows[j]))
            && (rows[j].kind == Reversal ==> reversals == {})
  {
    hide Reachable, ReversalsMatch, RowsOk, IdsDistinct, ReversalsOf;
    ReversalTables(db);
    var rows := db.transactions;
    var reversals := ReversalsOf(rows, rows[j].id);
    if rows[j].status == Reversed { ReversedIsListed(rows, j); }
    if reversals != {} {
      var i :| i in reversals;
      ListedReversal(rows, rows[j].id, i);
      ReversalOf(db, i, j);
    }
  }

  lemma ListedReversal(rows: seq<Transaction>, id: Id, i: nat)
    requires i in ReversalsOf(rows, id)
    ensures i < |rows| && rows[i].related == Some(id)
  {
  }

  lemma ReversedIsListed(rows: seq<Transaction>, j: nat)
    requires ReversalsMatch(rows) && j < |rows| && rows[j].status == Reversed
    ensures ReversalsOf(rows, rows[j].id) != {}
  {
    hide HasOriginal, HasReversal;
    ReversalListed(rows, j);
  }

  lemma ReversalListed(rows: seq<Transaction>, j: nat)
    requires j < |rows| && HasReversal(rows, j)
    ensures ReversalsOf(rows, rows[j].id) != {}
  {
    var i :| j < i < |rows| && Undoes(rows[i], rows[j]);
    assert i in ReversalsOf(rows, rows[j].id);
  }

  // What decides a first reversal request; the checks for a missing wallet id and for a missing
  // wallet row never fire.
  lemma ReverseDecided(db: Db, call: Call)
    requires Reachable(db) && call.request.ReverseRequest?
    ensures var original := GetTransaction(db.transactions, call.request.transaction);
            match Judge(db, call)
            case Rejects(NotFound) => original.None?
            case Rejects(AlreadyReversed) => original.Some? && original.value.status == Reversed
            case Rejects(Validation) => original.Some? && original.value.kind == Reversal
            case Rejects(InsufficientFunds) =>
              original.Some? && Live(original.value)
              && original.value.destination.Some? && original.value.destination.value in db.wallets
              && db.wallets[original.value.destination.value].balance < original.value.amount
            case Posts(m) =>
              original.Some? && Live(original.value)
              && original.value.destination.Some? && original.value.destination.value in db.wallets
              && db.wallets[original.value.destination.value].balance >= original.value.amount
            case _ => false
  {
    hide Reachable, FindTransaction;
    SystemTables(db);
    var place := FindTransaction(db.transactions, call.request.transaction);
    if place.Some? {
      assert WellFormed(db.transactions[place.value], db.wallets);
    }
  }

  // ---------- Wallet status ----------

  // A posting touches a wallet that is not active only by a reversal, or by drawing a top-up on the
  // system wallet.
  lemma InactiveWallets(db: Db, call: Call, id: Id)
    requires Decide(db, call).Posts? && id in db.wallets && db.wallets[id].status != Active
    requires var m := Decide(db, call).movement; id == m.source || id == m.destination
    ensures var m := Decide(db, call).movement;
            m.kind == Reversal || (m.kind == TopUp && id == SYSTEM_WALLET_ID)
  {
  }

  predicate SameButStatus(a: map<Id, Wallet>, b: map<Id, Wallet>)
  {
    a.Keys == b.Keys && forall id | id in a :: a[id].balance == b[id].balance
  }

  // No wallet status ever decides a reversal.
  lemma ReverseIgnoresStatus(db: Db, wallets: map<Id, Wallet>, call: Call)
    requires call.request.ReverseRequest? && SameButStatus(db.wallets, wallets)
    ensures Decide(db.(wallets := wallets), call) == Decide(db, call)
  {
    hide FindTransaction;
  }

  // A status update reads a wallet without a lock and later saves the whole row. The books survive
  // it exactly when the balance it read is still the balance.
  lemma StaleStatusSave(db: Db, id: Id, read: Wallet, status: WalletStatus)
    requires Reachable(db) && id in db.wallets
    ensures Sound(ApplyWrite(db, SaveWallet(id, read.(status := status)))) <==> read.balance == db.wallets[id].balance
  {
    hide Reachable, LedgerNet, Sum, ZeroSum, RowsOk, KeysOk, OutboxOk, ReversalsMatch, DoubleEntry, IdsDistinct;
    ReachableIsSound(db);
    var after := ApplyWrite(db, SaveWallet(id, read.(status := status)));
    assert id in after.wallets && after.ledger == db.ledger;
    if read.balance == db.wallets[id].balance {
      StatusKeepsSound(db, id, status);
      assert after == Step(db, SetStatus(id, status), Unbounded);
    }
  }

  // ---------- Outbox ----------

  lemma EventTables(db: Db)
    requires Reachable(db)
    ensures OutboxOk(db.outbox, db.transactions) && RowsOk(db.transactions, db.wallets)
  {
    hide Reachable, OutboxOk, RowsOk;
    ReachableIsSound(db);
  }

  lemma AnnouncementParses(event: OutboxRow, row: Transaction)
    requires Announces(event, row) && 0 < row.amount <= MAX_INT64
    ensures event.aggregate == row.id
    ensures event.eventType == (if row.kind == Reversal then "transaction.reversed" else "transaction.completed")
    ensures ParsePayload(event.payload).Ok?
    ensures var payload := ParsePayload(event.payload).value;
            payload == Payload(payload.eventId, event.eventType, row.id, row.source, row.destination, row.amount,
                row.related)
            && event.payload == Object(Fields(payload))
  {
    hide ParsePayload, Fields;
    var eventId :| Says(event, row, eventId);
    ParseFields(PayloadOf(eventId, EventTypeOf(row.kind), row));
  }

  // One event for each transaction, of the right type, and its payload reads back as that transaction.
  lemma EventsTell(db: Db, i: nat)
    requires Reachable(db) && i < |db.transactions|
    ensures var row := db.transactions[i];
            && |db.outbox| == |db.transactions| && db.outbox[i].aggregate == row.id
            && db.outbox[i].eventType
                == (if row.kind == Reversal then "transaction.reversed" else "transaction.completed")
            && ParsePayload(db.outbox[i].payload).Ok?
            && var payload := ParsePayload(db.outbox[i].payload).value;
               payload == Payload(payload.eventId, db.outbox[i].eventType, row.id, row.source, row.destination,
                   row.amount, row.related)
  {
    hide Reachable, ParsePayload, Fields, Announces;
    EventTables(db);
    assert WellFormed(db.transactions[i], db.wallets) && Announces(db.outbox[i], db.transactions[i]);
    AnnouncementParses(db.outbox[i], db.transactions[i]);
  }
}
