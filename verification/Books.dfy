// The invariants of the books, and that every writer keeps them.
module Books {
  import opened Wrappers
  import opened Uuid
  import opened Model
  import opened Events
  import opened Engine
  import opened Sums
  import Runs

  // ---------- What holds of the tables ----------

  predicate WellFormed(row: Transaction, wallets: map<Id, Wallet>)
  {
    row.source.Some? && row.destination.Some? && row.source != row.destination
    && row.source.value in wallets && row.destination.value in wallets
    && 0 < row.amount <= MAX_INT64
    && (row.kind == Reversal <==> row.related.Some?)
    && (row.status == Completed || (row.status == Reversed && row.kind != Reversal))
    && (row.kind == TopUp ==> row.source == Some(SYSTEM_WALLET_ID))
    && (row.kind == Transfer ==> row.source != Some(SYSTEM_WALLET_ID))
    && (row.status == Reversed ==> row.destination != Some(SYSTEM_WALLET_ID))
  }

  ghost predicate RowsOk(rows: seq<Transaction>, wallets: map<Id, Wallet>)
  {
    SYSTEM_WALLET_ID in wallets && forall i {:trigger WellFormed(rows[i], wallets)} | 0 <= i < |rows| ::
        WellFormed(rows[i], wallets)
  }

  ghost predicate IdsDistinct(rows: seq<Transaction>)
  {
    forall i, j | 0 <= i < j < |rows| :: rows[i].id != rows[j].id
  }

  // Stored balance = ledger = all transactions = only the live transactions.
  ghost predicate Balanced(wallets: map<Id, Wallet>, rows: seq<Transaction>, ledger: seq<LedgerEntry>)
  {
    forall id | id in wallets ::
      && wallets[id].balance == LedgerNet(ledger, id)
      && wallets[id].balance == Sum(rows, AllMoves(id))
      && wallets[id].balance == Sum(rows, LiveMoves(id))
  }

  predicate Posted(ledger: seq<LedgerEntry>, i: nat, row: Transaction)
  {
    2 * i + 1 < |ledger| && row.source.Some? && row.destination.Some?
    && ledger[2 * i] == LedgerEntry(row.id, row.source.value, Debit, row.amount)
    && ledger[2 * i + 1] == LedgerEntry(row.id, row.destination.value, Credit, row.amount)
  }

  // Two ledger rows for each transaction, a debit and a credit of its amount.
  ghost predicate DoubleEntry(rows: seq<Transaction>, ledger: seq<LedgerEntry>)
  {
    |ledger| == 2 * |rows| && forall i {:trigger Posted(ledger, i, rows[i])} | 0 <= i < |rows| ::
        Posted(ledger, i, rows[i])
  }

  ghost predicate ZeroSum(wallets: map<Id, Wallet>)
  {
    Total(wallets) == 0
    && forall id | id in wallets && id != SYSTEM_WALLET_ID :: wallets[id].balance >= 0
  }

  predicate Undoes(reversal: Transaction, original: Transaction)
  {
    reversal.kind == Reversal && original.kind != Reversal
    && reversal.related == Some(original.id)
    && reversal.source == original.destination && reversal.destination == original.source
    && reversal.amount == original.amount
  }

  ghost predicate HasOriginal(rows: seq<Transaction>, i: nat)
    requires i < |rows|
  {
    exists j :: 0 <= j < i && Undoes(rows[i], rows[j]) && rows[j].status == Reversed
  }

  ghost predicate HasReversal(rows: seq<Transaction>, j: nat)
    requires j < |rows|
  {
    exists i :: j < i < |rows| && Undoes(rows[i], rows[j])
  }

  ghost predicate RelatedDistinct(rows: seq<Transaction>)
  {
    forall i, j | 0 <= i < j < |rows| && rows[i].related.Some? :: rows[i].related != rows[j].related
  }

  // Reversal rows and reversed rows pair up.
  ghost predicate ReversalsMatch(rows: seq<Transaction>)
  {
    && (forall i {:trigger HasOriginal(rows, i)} | 0 <= i < |rows| && rows[i].kind == Reversal :: HasOriginal(rows, i))
    && (forall j {:trigger HasReversal(rows, j)} | 0 <= j < |rows| && rows[j].status == Reversed ::
        HasReversal(rows, j))
    && RelatedDistinct(rows)
  }

  // The transaction is what this request asks for.
  predicate AskedFor(request: Request, row: Transaction)
  {
    match request
    case TopUpRequest(wallet, amount, metadata) =>
      row.kind == TopUp && row.destination == Some(wallet) && row.amount == amount && row.metadata == metadata
    case TransferRequest(source, destination, amount, metadata) =>
      row.kind == Transfer && row.source == Some(source) && row.destination == Some(destination)
      && row.amount == amount && row.metadata == metadata
    case ReverseRequest(transaction) => row.kind == Reversal && row.related == Some(transaction)
  }

  // A record holds the request of its own transaction, that transaction's id and its response.
  predicate Keeps(record: IdempotencyRecord, slot: Slot, rows: seq<Transaction>)
  {
    slot.key != "" && EndpointOf(record.request) == slot.endpoint
    && record.response.Some? && record.response.value.code == 201
    && record.resource == Some(record.response.value.body.id)
    && var row := GetTransaction(rows, record.response.value.body.id);
       row.Some? && row.value.key == Some(slot.key) && EndpointOfKind(row.value.kind) == slot.endpoint
       && record.response.value.body == row.value.(status := Completed) && AskedFor(record.request, row.value)
  }

  predicate Recorded(row: Transaction, keys: map<Slot, IdempotencyRecord>)
  {
    row.key.Some? ==>
      var slot := Slot(row.key.value, EndpointOfKind(row.kind));
      slot in keys && keys[slot].resource == Some(row.id)
  }

  ghost predicate KeysOk(keys: map<Slot, IdempotencyRecord>, rows: seq<Transaction>)
  {
    && (forall slot {:trigger Keeps(keys[slot], slot, rows)} | slot in keys :: Keeps(keys[slot], slot, rows))
    && (forall i {:trigger Recorded(rows[i], keys)} | 0 <= i < |rows| :: Recorded(rows[i], keys))
  }

  predicate Says(event: OutboxRow, row: Transaction, eventId: Id)
  {
    event.payload == EventFor(eventId, row).payload
    && event.aggregate == row.id && event.eventType == EventTypeOf(row.kind)
  }

  ghost predicate Announces(event: OutboxRow, row: Transaction)
  {
    exists eventId :: Says(event, row, eventId)
  }

  ghost predicate OutboxOk(outbox: seq<OutboxRow>, rows: seq<Transaction>)
  {
    && |outbox| == |rows|
    && (forall i {:trigger Announces(outbox[i], rows[i])} | 0 <= i < |outbox| :: Announces(outbox[i], rows[i]))
    && (forall i, j | 0 <= i < j < |outbox| :: EventText(outbox[i]) != EventText(outbox[j]))
  }

  ghost predicate Sound(db: Db)
  {
    && RowsOk(db.transactions, db.wallets) && IdsDistinct(db.transactions)
    && Balanced(db.wallets, db.transactions, db.ledger) && DoubleEntry(db.transactions, db.ledger)
    && ZeroSum(db.wallets) && ReversalsMatch(db.transactions)
    && KeysOk(db.keys, db.transactions) && OutboxOk(db.outbox, db.transactions)
  }

  // ---------- First consequences ----------

  // The system wallet owes what the others hold: it is never positive, and no wallet holds more than it owes.
  lemma SystemOwes(wallets: map<Id, Wallet>)
    requires SYSTEM_WALLET_ID in wallets && ZeroSum(wallets)
    ensures wallets[SYSTEM_WALLET_ID].balance <= 0
    ensures forall id | id in wallets :: wallets[id].balance <= -wallets[SYSTEM_WALLET_ID].balance
  {
    var others := wallets - {SYSTEM_WALLET_ID};
    TotalRemove(wallets, SYSTEM_WALLET_ID);
    TotalNonNegative(others);
    forall id | id in wallets && id != SYSTEM_WALLET_ID
      ensures wallets[id].balance <= -wallets[SYSTEM_WALLET_ID].balance
    {
      TotalRemove(others, id);
      TotalNonNegative(others - {id});
    }
  }

  lemma FindDistinct(rows: seq<Transaction>, i: nat)
    requires i < |rows| && IdsDistinct(rows)
    ensures FindTransaction(rows, rows[i].id) == Some(i)
  {
    var place := FindTransaction(rows, rows[i].id);
  }

  // The row that a reversal undoes, if there is one, and what it must look like.
  ghost predicate RelatedOk(rows: seq<Transaction>, m: Movement)
  {
    (m.kind == Reversal <==> m.related.Some?)
    && (m.related.Some? ==>
          var place := FindTransaction(rows, m.related.value);
          place.Some?
          && var original := rows[place.value];
             Live(original) && original.source == Some(m.destination) && original.destination == Some(m.source)
             && original.amount == m.amount)
  }

  // What a posting may rely on.
  ghost predicate Movable(wallets: map<Id, Wallet>, m: Movement)
  {
    && m.source in wallets && m.destination in wallets && m.source != m.destination
    && 0 < m.amount <= MAX_INT64
    && (m.kind == TopUp ==> m.source == SYSTEM_WALLET_ID)
    && (m.kind != TopUp ==> m.source != SYSTEM_WALLET_ID && m.amount <= wallets[m.source].balance)
  }

  lemma RequestedMovable(db: Db, call: Call, m: Movement)
    requires !call.request.ReverseRequest? && ValidRequest(call.request)
    requires RowsOk(db.transactions, db.wallets) && ZeroSum(db.wallets)
    requires Judge(db, call) == Posts(m)
    ensures Movable(db.wallets, m) && RelatedOk(db.transactions, m)
    ensures EndpointOfKind(m.kind) == EndpointOf(call.request) && AskedFor(call.request, NewTransaction(call, m))
  {
    SystemOwes(db.wallets);
  }

  lemma ReversalMovable(db: Db, call: Call, m: Movement)
    requires call.request.ReverseRequest?
    requires RowsOk(db.transactions, db.wallets) && ZeroSum(db.wallets)
    requires Judge(db, call) == Posts(m)
    ensures Movable(db.wallets, m) && RelatedOk(db.transactions, m)
    ensures EndpointOfKind(m.kind) == EndpointOf(call.request) && AskedFor(call.request, NewTransaction(call, m))
  {
    hide FindTransaction;
    SystemOwes(db.wallets);
    var i := FindTransaction(db.transactions, call.request.transaction).value;
    assert WellFormed(db.transactions[i], db.wallets);
  }

  lemma PostsAreMovable(db: Db, call: Call, m: Movement)
    requires Sound(db) && ValidRequest(call.request)
    requires Decide(db, call) == Posts(m)
    ensures Movable(db.wallets, m) && RelatedOk(db.transactions, m)
    ensures EndpointOfKind(m.kind) == EndpointOf(call.request) && AskedFor(call.request, NewTransaction(call, m))
    ensures call.key != "" ==> SlotOf(call) !in db.keys
  {
    hide Judge, Balanced, DoubleEntry, ReversalsMatch, KeysOk, OutboxOk, Movable, RelatedOk;
    if call.request.ReverseRequest? {
      ReversalMovable(db, call, m);
    } else {
      RequestedMovable(db, call, m);
    }
  }

  // ---------- A posting keeps each of them ----------

  lemma MarkedRow(rows: seq<Transaction>, related: Option<Id>, i: nat)
    requires i < |rows|
    ensures var marked := MarkReversed(rows, related)[i];
            marked == rows[i]
            || (related.Some? && FindTransaction(rows, related.value) == Some(i)
                && marked == rows[i].(status := Reversed))
    ensures related.Some? && FindTransaction(rows, related.value) == Some(i)
            ==> MarkReversed(rows, related)[i] == rows[i].(status := Reversed)
  {
    hide FindTransaction;
  }

  lemma PostKeepsRows(rows: seq<Transaction>, wallets: map<Id, Wallet>, call: Call, m: Movement, arith: Arith)
    requires RowsOk(rows, wallets) && Movable(wallets, m) && RelatedOk(rows, m)
    ensures RowsOk(PostRows(rows, m.related, NewTransaction(call, m)), PostWallets(wallets, m, arith))
  {
    hide FindTransaction;
    var after, wallets' := PostRows(rows, m.related, NewTransaction(call, m)), PostWallets(wallets, m, arith);
    forall i | 0 <= i < |after|
      ensures WellFormed(after[i], wallets')
    {
      if i < |rows| {
        MarkedRow(rows, m.related, i);
        assert WellFormed(rows[i], wallets);
      }
    }
  }

  lemma PostKeepsIds(rows: seq<Transaction>, related: Option<Id>, row: Transaction)
    requires IdsDistinct(rows) && GetTransaction(rows, row.id).None?
    ensures IdsDistinct(PostRows(rows, related, row))
  {
    hide FindTransaction;
    var after := PostRows(rows, related, row);
    forall i | 0 <= i < |rows| ensures after[i].id == rows[i].id {
      MarkedRow(rows, related, i);
    }
  }

  // Reversing a live transaction takes its effect out of every sum of live moves,
  // which is the effect of the reversal row itself.
  lemma PostMovesSums(rows: seq<Transaction>, call: Call, m: Movement, id: Id)
    requires RelatedOk(rows, m)
    ensures var row := NewTransaction(call, m);
            var after := PostRows(rows, m.related, row);
            && Sum(after, AllMoves(id)) == Sum(rows, AllMoves(id)) + Effect(row, id)
            && Sum(after, LiveMoves(id)) == Sum(rows, LiveMoves(id)) + Effect(row, id)
  {
    hide FindTransaction, Sum;
    var row := NewTransaction(call, m);
    var marked := MarkReversed(rows, m.related);
    SumAppend(marked, row, AllMoves(id));
    SumAppend(marked, row, LiveMoves(id));
    if m.related.Some? {
      var i := FindTransaction(rows, m.related.value).value;
      SumUpdate(rows, i, rows[i].(status := Reversed), AllMoves(id));
      SumUpdate(rows, i, rows[i].(status := Reversed), LiveMoves(id));
    }
  }

  lemma PostKeepsBalances(db: Db, call: Call, m: Movement)
    requires Balanced(db.wallets, db.transactions, db.ledger)
    requires Movable(db.wallets, m) && RelatedOk(db.transactions, m)
    ensures var row := NewTransaction(call, m);
            Balanced(PostWallets(db.wallets, m, Unbounded), PostRows(db.transactions, m.related, row),
                     db.ledger + Entries(row, m))
  {
    hide FindTransaction, Sum, LedgerNet, PostRows, RelatedOk;
    var row := NewTransaction(call, m);
    var wallets := PostWallets(db.wallets, m, Unbounded);
    forall id | id in wallets
      ensures wallets[id].balance == LedgerNet(db.ledger + Entries(row, m), id)
           && wallets[id].balance == Sum(PostRows(db.transactions, m.related, row), AllMoves(id))
           && wallets[id].balance == Sum(PostRows(db.transactions, m.related, row), LiveMoves(id))
    {
      assert id in db.wallets;
      PostMovesSums(db.transactions, call, m, id);
      LedgerAppend(db.ledger, row, m, id);
    }
  }

  lemma PostKeepsDoubleEntry(rows: seq<Transaction>, ledger: seq<LedgerEntry>, call: Call, m: Movement)
    requires DoubleEntry(rows, ledger)
    ensures var row := NewTransaction(call, m);
            DoubleEntry(PostRows(rows, m.related, row), ledger + Entries(row, m))
  {
    hide FindTransaction;
    var row := NewTransaction(call, m);
    var after, ledger' := PostRows(rows, m.related, row), ledger + Entries(row, m);
    forall i | 0 <= i < |after|
      ensures Posted(ledger', i, after[i])
    {
      if i < |rows| {
        MarkedRow(rows, m.related, i);
        assert Posted(ledger, i, rows[i]);
      } else {
        assert ledger'[2 * i] == Entries(row, m)[0] && ledger'[2 * i + 1] == Entries(row, m)[1];
      }
    }
  }

  lemma PostKeepsZeroSum(wallets: map<Id, Wallet>, m: Movement)
    requires ZeroSum(wallets) && Movable(wallets, m)
    ensures ZeroSum(PostWallets(wallets, m, Unbounded))
  {
    hide Total;
    var source := Moved(wallets[m.source], -m.amount, Unbounded);
    TotalSet(wallets, m.source, source);
    TotalSet(wallets[m.source := source], m.destination, Moved(wallets[m.destination], m.amount, Unbounded));
  }

  // Rows change only by the mark on the original of a reversal.
  ghost predicate Extends(rows: seq<Transaction>, after: seq<Transaction>, row: Transaction)
  {
    |after| == |rows| + 1 && after[|rows|] == row
    && forall i | 0 <= i < |rows| ::
         after[i] == rows[i] || (after[i] == rows[i].(status := Reversed) && Undoes(row, after[i]))
  }

  lemma PostExtends(rows: seq<Transaction>, call: Call, m: Movement)
    requires RelatedOk(rows, m)
    ensures Extends(rows, PostRows(rows, m.related, NewTransaction(call, m)), NewTransaction(call, m))
  {
    hide FindTransaction;
    var after := PostRows(rows, m.related, NewTransaction(call, m));
    forall i | 0 <= i < |rows|
      ensures after[i] == rows[i]
          || (after[i] == rows[i].(status := Reversed) && Undoes(NewTransaction(call, m), after[i]))
    {
      MarkedRow(rows, m.related, i);
    }
  }

  lemma OriginalStays(rows: seq<Transaction>, after: seq<Transaction>, row: Transaction, i: nat)
    requires Extends(rows, after, row) && i < |rows| && HasOriginal(rows, i)
    ensures HasOriginal(after, i)
  {
    var j :| 0 <= j < i && Undoes(rows[i], rows[j]) && rows[j].status == Reversed;
    assert Undoes(after[i], after[j]);
  }

  lemma ReversalStays(rows: seq<Transaction>, after: seq<Transaction>, row: Transaction, j: nat)
    requires Extends(rows, after, row) && j < |rows| && HasReversal(rows, j)
    ensures HasReversal(after, j)
  {
    var i :| j < i < |rows| && Undoes(rows[i], rows[j]);
    assert Undoes(after[i], after[j]);
  }

  lemma NewReversal(after: seq<Transaction>, j: nat)
    requires j < |after| - 1 && Undoes(after[|after| - 1], after[j]) && after[j].status == Reversed
    ensures HasOriginal(after, |after| - 1) && HasReversal(after, j)
  {
  }

  lemma PostKeepsReversals(rows: seq<Transaction>, wallets: map<Id, Wallet>, call: Call, m: Movement)
    requires ReversalsMatch(rows) && IdsDistinct(rows) && RowsOk(rows, wallets) && RelatedOk(rows, m)
    ensures ReversalsMatch(PostRows(rows, m.related, NewTransaction(call, m)))
  {
    hide FindTransaction, RowsOk, HasOriginal, HasReversal, PostRows, IdsDistinct;
    var row := NewTransaction(call, m);
    var after := PostRows(rows, m.related, row);
    PostExtends(rows, call, m);
    if m.related.Some? { PostMarks(rows, call, m); NewReversal(after, FindTransaction(rows, m.related.value).value); }
    forall i | 0 <= i < |after| && after[i].kind == Reversal ensures HasOriginal(after, i) {
      if i < |rows| { OriginalStays(rows, after, row, i); }
    }
    forall j | 0 <= j < |after| && after[j].status == Reversed ensures HasReversal(after, j) {
      if rows[j].status == Reversed { ReversalStays(rows, after, row, j); } else { NewReversal(after, j); }
    }
    forall i, j | 0 <= i < j < |after| && after[i].related.Some? ensures after[i].related != after[j].related {
      if j == |rows| { EarlierReversal(rows, wallets, m, i); }
    }
  }

  lemma PostMarks(rows: seq<Transaction>, call: Call, m: Movement)
    requires RelatedOk(rows, m) && m.related.Some?
    ensures var after := PostRows(rows, m.related, NewTransaction(call, m));
            var j := FindTransaction(rows, m.related.value).value;
            Undoes(after[|rows|], after[j]) && after[j].status == Reversed
  {
    hide FindTransaction;
    MarkedRow(rows, m.related, FindTransaction(rows, m.related.value).value);
  }

  // No earlier row is related to a live original.
  lemma EarlierReversal(rows: seq<Transaction>, wallets: map<Id, Wallet>, m: Movement, i: nat)
    requires ReversalsMatch(rows) && IdsDistinct(rows) && RowsOk(rows, wallets) && RelatedOk(rows, m)
    requires i < |rows| && rows[i].related.Some?
    ensures rows[i].related != m.related
  {
    hide FindTransaction;
    if rows[i].related == m.related {
      assert WellFormed(rows[i], wallets) && HasOriginal(rows, i);
      hide HasReversal;
      var j :| 0 <= j < i && Undoes(rows[i], rows[j]) && rows[j].status == Reversed;
      FindDistinct(rows, j);
    }
  }

  lemma KeptAfterPost(rows: seq<Transaction>, record: IdempotencyRecord, slot: Slot, related: Option<Id>,
      row: Transaction)
    requires Keeps(record, slot, rows) && IdsDistinct(rows) && GetTransaction(rows, row.id).None?
    ensures Keeps(record, slot, PostRows(rows, related, row))
  {
    hide FindTransaction;
    var after := PostRows(rows, related, row);
    var i := FindTransaction(rows, record.response.value.body.id).value;
    MarkedRow(rows, related, i);
    PostKeepsIds(rows, related, row);
    FindDistinct(after, i);
  }

  lemma PostKeepsKeys(rows: seq<Transaction>, keys: map<Slot, IdempotencyRecord>, call: Call, m: Movement)
    requires KeysOk(keys, rows) && IdsDistinct(rows) && GetTransaction(rows, call.transactionId).None?
    requires EndpointOfKind(m.kind) == EndpointOf(call.request) && AskedFor(call.request, NewTransaction(call, m))
    requires call.key != "" ==> SlotOf(call) !in keys
    ensures var row := NewTransaction(call, m);
            KeysOk(PostKeys(keys, call, row), PostRows(rows, m.related, row))
  {
    hide FindTransaction;
    var n, row := |rows|, NewTransaction(call, m);
    var after, keys' := PostRows(rows, m.related, row), PostKeys(keys, call, row);
    forall slot | slot in keys'
      ensures Keeps(keys'[slot], slot, after)
    {
      if call.key != "" && slot == SlotOf(call) {
        PostKeepsIds(rows, m.related, row);
        FindDistinct(after, n);
        assert GetTransaction(after, row.id) == Some(row);
      } else {
        assert Keeps(keys[slot], slot, rows);
        KeptAfterPost(rows, keys[slot], slot, m.related, row);
      }
    }
    forall i | 0 <= i < |after|
      ensures Recorded(after[i], keys')
    {
      if i < n {
        MarkedRow(rows, m.related, i);
        assert Recorded(rows[i], keys);
      }
    }
  }

  lemma NewEventText(eventId: Id, row: Transaction)
    ensures EventText(EventFor(eventId, row)) == Uuid.Text(eventId)
  {
    hide Uuid.Text;
  }

  lemma PostKeepsOutbox(outbox: seq<OutboxRow>, rows: seq<Transaction>, call: Call, m: Movement)
    requires OutboxOk(outbox, rows)
    requires forall i | 0 <= i < |outbox| :: EventText(outbox[i]) != Uuid.Text(call.eventId)
    ensures var row := NewTransaction(call, m);
            OutboxOk(outbox + [EventFor(call.eventId, row)], PostRows(rows, m.related, row))
  {
    hide FindTransaction, Fields, Uuid.Text, EventText;
    var n, row := |rows|, NewTransaction(call, m);
    var after, outbox' := PostRows(rows, m.related, row), outbox + [EventFor(call.eventId, row)];
    forall i | 0 <= i < |outbox'|
      ensures Announces(outbox'[i], after[i])
    {
      if i < n {
        MarkedRow(rows, m.related, i);
        assert Announces(outbox[i], rows[i]);
        var eventId :| Says(outbox[i], rows[i], eventId);
        assert Says(outbox'[i], after[i], eventId);
      } else {
        assert Says(outbox'[n], after[n], call.eventId);
      }
    }
    NewEventText(call.eventId, row);
  }

  lemma PostKeepsSound(db: Db, call: Call, m: Movement)
    requires Sound(db) && ValidRequest(call.request) && Fresh(db, call)
    requires Decide(db, call) == Posts(m)
    ensures Sound(Post(db, call, m, Unbounded))
  {
    PostsAreMovable(db, call, m);
    hide RowsOk, IdsDistinct, Balanced, DoubleEntry, ZeroSum, ReversalsMatch, KeysOk, OutboxOk, Movable, RelatedOk;
    hide PostRows, PostWallets, PostKeys, EventFor, Entries, Decide, FindTransaction;
    PostKeepsRows(db.transactions, db.wallets, call, m, Unbounded);
    PostKeepsIds(db.transactions, m.related, NewTransaction(call, m));
    PostKeepsBalances(db, call, m);
    PostKeepsDoubleEntry(db.transactions, db.ledger, call, m);
    PostKeepsZeroSum(db.wallets, m);
    PostKeepsReversals(db.transactions, db.wallets, call, m);
    PostKeepsKeys(db.transactions, db.keys, call, m);
    PostKeepsOutbox(db.outbox, db.transactions, call, m);
  }

  // ---------- Every reachable database ----------

  lemma SeededIsSound()
    ensures Sound(SEEDED)
  {
    TotalRemove(SEEDED.wallets, SYSTEM_WALLET_ID);
    assert SEEDED.wallets - {SYSTEM_WALLET_ID} == map[];
  }

  // A wallet id without rows has no effect recorded anywhere.
  lemma {:induction false} UnusedWallet(rows: seq<Transaction>, ledger: seq<LedgerEntry>, wallets: map<Id, Wallet>,
      id: Id)
    requires RowsOk(rows, wallets) && DoubleEntry(rows, ledger) && id !in wallets
    ensures Sum(rows, AllMoves(id)) == 0 && Sum(rows, LiveMoves(id)) == 0
    ensures LedgerNet(ledger, id) == 0
    decreases |rows|
  {
    var n := |rows| - 1;
    if rows == [] {
    } else {
      forall i | 0 <= i < n ensures Posted(ledger[..2 * n], i, rows[i]) { assert Posted(ledger, i, rows[i]); }
      UnusedWallet(rows[..n], ledger[..2 * n], wallets, id);
      assert WellFormed(rows[n], wallets) && Posted(ledger, n, rows[n]);
      assert ledger[..2 * n + 1][..2 * n] == ledger[..2 * n];
      assert LedgerNet(ledger[..2 * n + 1], id) == 0;
    }
  }

  lemma WalletsGrowRows(rows: seq<Transaction>, wallets: map<Id, Wallet>, more: map<Id, Wallet>)
    requires RowsOk(rows, wallets) && wallets.Keys <= more.Keys
    ensures RowsOk(rows, more)
  {
    forall i | 0 <= i < |rows| ensures WellFormed(rows[i], more) {
      assert WellFormed(rows[i], wallets);
    }
  }

  lemma OpenKeepsSound(db: Db, id: Id)
    requires Sound(db)
    ensures Sound(Step(db, OpenWallet(id), Unbounded))
  {
    hide ReversalsMatch, KeysOk, OutboxOk, IdsDistinct, RowsOk, DoubleEntry, Sum, LedgerNet, Total;
    if id !in db.wallets {
      var wallets := db.wallets[id := Wallet(Active, 0)];
      WalletsGrowRows(db.transactions, db.wallets, wallets);
      UnusedWallet(db.transactions, db.ledger, db.wallets, id);
      TotalSet(db.wallets, id, Wallet(Active, 0));
      assert Balanced(wallets, db.transactions, db.ledger) && ZeroSum(wallets);
    }
  }

  lemma StatusKeepsSound(db: Db, id: Id, status: WalletStatus)
    requires Sound(db)
    ensures Sound(Step(db, SetStatus(id, status), Unbounded))
  {
    hide ReversalsMatch, KeysOk, OutboxOk, IdsDistinct, RowsOk, DoubleEntry, Sum, LedgerNet, Total;
    if id in db.wallets {
      var wallets := db.wallets[id := db.wallets[id].(status := status)];
      WalletsGrowRows(db.transactions, db.wallets, wallets);
      TotalSet(db.wallets, id, wallets[id]);
      assert Balanced(wallets, db.transactions, db.ledger) && ZeroSum(wallets);
    }
  }

  // Two outboxes that differ only in delivery progress.
  predicate SameEvents(a: seq<OutboxRow>, b: seq<OutboxRow>)
  {
    |a| == |b| && forall i | 0 <= i < |a| ::
      a[i].payload == b[i].payload && a[i].aggregate == b[i].aggregate && a[i].eventType == b[i].eventType
  }

  lemma DeliveryKeepsSound(db: Db, outbox: seq<OutboxRow>)
    requires Sound(db) && SameEvents(db.outbox, outbox)
    ensures Sound(db.(outbox := outbox))
  {
    hide ReversalsMatch, KeysOk, IdsDistinct, RowsOk, DoubleEntry, Balanced, ZeroSum, EventFor;
    forall i | 0 <= i < |outbox| ensures Announces(outbox[i], db.transactions[i]) {
      assert Announces(db.outbox[i], db.transactions[i]);
      var eventId :| Says(db.outbox[i], db.transactions[i], eventId);
      assert Says(outbox[i], db.transactions[i], eventId);
    }
    forall i | 0 <= i < |outbox| ensures EventText(outbox[i]) == EventText(db.outbox[i]) { }
  }

  lemma StepKeepsSound(db: Db, op: DbOp)
    requires Sound(db) && Legal(db, op)
    ensures Sound(Step(db, op, Unbounded))
  {
    hide Sound, Decide, Post;
    match op
    case Money(call) =>
      if Decide(db, call).Posts? { PostKeepsSound(db, call, Decide(db, call).movement); }
    case OpenWallet(id) => OpenKeepsSound(db, id);
    case SetStatus(id, status) => StatusKeepsSound(db, id, status);
    case MarkPublished(i) => DeliveryKeepsSound(db, Step(db, op, Unbounded).outbox);
    case RecordFailure(i, message) => DeliveryKeepsSound(db, Step(db, op, Unbounded).outbox);
  }

  // Every database that any run of calls and other writers can reach is sound.
  lemma {:induction false} RunIsSound(ops: seq<DbOp>)
    requires LegalRun(SEEDED, ops, Unbounded)
    ensures Sound(Run(SEEDED, ops, Unbounded))
    decreases |ops|
  {
    if ops == [] {
      SeededIsSound();
    } else {
      RunIsSound(ops[..|ops| - 1]);
      StepKeepsSound(Run(SEEDED, ops[..|ops| - 1], Unbounded), ops[|ops| - 1]);
    }
  }

  // ---------- Reachable databases ----------

  function Writing(): (Db, DbOp, Db) -> bool
  {
    (db, op, after) => Legal(db, op) && after == Step(db, op, Unbounded)
  }

  // What some writers, one after another, make of the seeded database.
  ghost predicate Reachable(db: Db)
  {
    exists ops :: Runs.Leads(Writing(), SEEDED, ops, db)
  }

  lemma SeededIsReachable()
    ensures Reachable(SEEDED)
  {
    Runs.Stay(Writing(), SEEDED);
  }

  lemma StepIsReachable(db: Db, op: DbOp)
    requires Reachable(db) && Legal(db, op)
    ensures Reachable(Step(db, op, Unbounded))
  {
    hide Legal, Step;
    var ops :| Runs.Leads(Writing(), SEEDED, ops, db);
    Runs.GoOn(Writing(), SEEDED, ops, db, op, Step(db, op, Unbounded));
  }

  // Every run from a reachable database leads to reachable ones ...
  lemma {:induction false} RunIsReachable(init: Db, ops: seq<DbOp>)
    requires Reachable(init) && LegalRun(init, ops, Unbounded)
    ensures Reachable(Run(init, ops, Unbounded))
    decreases |ops|
  {
    hide Reachable, Legal, Step;
    if ops == [] {
    } else {
      RunIsReachable(init, ops[..|ops| - 1]);
      StepIsReachable(Run(init, ops[..|ops| - 1], Unbounded), ops[|ops| - 1]);
    }
  }

  // ... and every reachable database is where some run from the seeded one leads.
  lemma ReachableByRun(db: Db) returns (ops: seq<DbOp>)
    requires Reachable(db)
    ensures LegalRun(SEEDED, ops, Unbounded) && db == Run(SEEDED, ops, Unbounded)
  {
    ops :| Runs.Leads(Writing(), SEEDED, ops, db);
    LeadsIsRun(ops, db);
  }

  lemma {:induction false} LeadsIsRun(ops: seq<DbOp>, db: Db)
    requires Runs.Leads(Writing(), SEEDED, ops, db)
    ensures LegalRun(SEEDED, ops, Unbounded) && db == Run(SEEDED, ops, Unbounded)
    decreases |ops|
  {
    hide Runs.Leads, Legal, Step;
    if ops == [] {
      Runs.Nowhere(Writing(), SEEDED, ops, db);
    } else {
      var earlier := Runs.GoBack(Writing(), SEEDED, ops, db);
      LeadsIsRun(ops[..|ops| - 1], earlier);
    }
  }

  lemma ReachableIsSound(db: Db)
    requires Reachable(db)
    ensures Sound(db)
  {
    hide Sound, Reachable;
    var ops := ReachableByRun(db);
    RunIsSound(ops);
  }
}
