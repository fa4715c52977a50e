// What a call has read stays true until it commits: nobody else can touch what it holds.
module Isolation {
  import opened Wrappers
  import opened Uuid
  import opened Model
  import opened Engine
  import opened Interleaving

  predicate Uncommitted(stage: Stage)
  {
    stage.Arriving? || stage.Inserting? || stage.LockingRow? || stage.LockingWallets? || stage.Writing?
  }

  // The key of the call is still to be used.
  predicate Unused(db: Db, call: Call)
  {
    !SelfTransfer(call.request) && (call.key != "" ==> SlotOf(call) !in db.keys)
  }

  // The rows that the call has locked are the rows of the database.
  predicate Current(db: Db, call: Call, original: Option<Transaction>, m: Movement, rows: map<Id, Wallet>)
  {
    && original == Original(db, call.request) && Vet(call.request, original) == Ok(m)
    && forall id | id in rows :: id in db.wallets && rows[id] == db.wallets[id]
  }

  predicate Reads(db: Db, call: Call, stage: Stage)
  {
    match stage
    case Inserting => !SelfTransfer(call.request)
    case LockingRow => Unused(db, call)
    case LockingWallets(original, m, _, rows) => Unused(db, call) && Current(db, call, original, m, rows)
    case Writing(original, m, rows, _) =>
      Unused(db, call) && Current(db, call, original, m, rows) && Admit(m, rows) == None
    case _ => true
  }

  // A call before its commit: it is legal to run it now, and what it has read still holds.
  predicate InFlight(db: Db, p: Proc)
  {
    p.task.Move? && Uncommitted(p.stage) ==>
      Legal(db, Money(p.task.call)) && Reads(db, p.task.call, p.stage)
  }

  ghost predicate AllInFlight(w: World)
  {
    forall i {:trigger InFlight(w.db, w.procs[i])} | 0 <= i < |w.procs| :: InFlight(w.db, w.procs[i])
  }

  // ---------- Nobody else's writes reach it ----------

  predicate Untouched(db: Db, after: Db, r: Resource)
  {
    match r
    case KeyLock(slot) => slot in db.keys <==> slot in after.keys
    case RowLock(id) => GetTransaction(db.transactions, id) == GetTransaction(after.transactions, id)
    case WalletLock(id) => id in db.wallets ==> id in after.wallets && after.wallets[id] == db.wallets[id]
  }

  lemma OriginalUntouched(db: Db, after: Db, call: Call, original: Option<Transaction>)
    requires original == Original(db, call.request) && Vet(call.request, original).Ok?
    requires forall r | r in RowPart(original) :: Untouched(db, after, r)
    ensures original == Original(after, call.request)
  {
    hide FindTransaction;
    if original.Some? { assert RowLock(original.value.id) in RowPart(original); }
  }

  lemma RowsUntouched(db: Db, after: Db, rows: map<Id, Wallet>)
    requires forall id | id in rows :: id in db.wallets && rows[id] == db.wallets[id]
    requires forall r | r in WalletPart(rows) :: Untouched(db, after, r)
    ensures forall id | id in rows :: id in after.wallets && rows[id] == after.wallets[id]
  {
    hide GetTransaction;
    forall id | id in rows ensures id in after.wallets && rows[id] == after.wallets[id] {
      assert Untouched(db, after, WalletLock(id));
    }
  }

  lemma UnusedUntouched(db: Db, after: Db, call: Call)
    requires Unused(db, call)
    requires forall r | r in KeyPart(call) :: Untouched(db, after, r)
    ensures Unused(after, call)
  {
    hide GetTransaction;
    if call.key != "" { assert Untouched(db, after, KeyLock(SlotOf(call))); }
  }

  lemma ReadsStay(db: Db, after: Db, p: Proc)
    requires InFlight(db, p) && p.task.Move? && Uncommitted(p.stage)
    requires Legal(after, Money(p.task.call))
    requires forall r | r in Holdings(p) :: Untouched(db, after, r)
    ensures InFlight(after, p)
  {
    hide Untouched, Original, Vet, Admit, WalletPart, KeyPart, RowPart, Unused, Legal;
    var call := p.task.call;
    match p.stage
    case LockingRow => UnusedUntouched(db, after, call);
    case LockingWallets(original, m, _, rows) =>
      UnusedUntouched(db, after, call);
      OriginalUntouched(db, after, call, original);
      RowsUntouched(db, after, rows);
    case Writing(original, m, rows, _) =>
      UnusedUntouched(db, after, call);
      OriginalUntouched(db, after, call, original);
      RowsUntouched(db, after, rows);
    case _ =>
  }

  // ---------- The writers ----------

  lemma {:induction false} FindAfterMark(rows: seq<Transaction>, marked: seq<Transaction>, id: Id)
    requires |marked| == |rows| && forall i | 0 <= i < |rows| :: marked[i].id == rows[i].id
    ensures FindTransaction(marked, id) == FindTransaction(rows, id)
    decreases |rows|
  {
    if rows == [] {
    } else {
      FindAfterMark(rows[..|rows| - 1], marked[..|rows| - 1], id);
    }
  }

  lemma MarkKeepsIds(rows: seq<Transaction>, related: Option<Id>)
    ensures forall i | 0 <= i < |rows| :: MarkReversed(rows, related)[i].id == rows[i].id
  {
    hide FindTransaction;
  }

  // A posting touches one transaction row besides its own.
  lemma PostLeavesRow(rows: seq<Transaction>, related: Option<Id>, row: Transaction, id: Id)
    requires id != row.id && related != Some(id)
    ensures GetTransaction(PostRows(rows, related, row), id) == GetTransaction(rows, id)
  {
    MarkKeepsIds(rows, related);
    FindAfterMark(rows, MarkReversed(rows, related), id);
    FindInExtended(MarkReversed(rows, related), row, id);
    hide FindTransaction;
  }

  lemma PostLeaves(db: Db, call: Call, m: Movement, arith: Arith, r: Resource)
    requires m.source in db.wallets && m.destination in db.wallets
    requires r.KeyLock? ==> call.key == "" || r.slot != SlotOf(call)
    requires r.RowLock? ==> r.transaction != call.transactionId && m.related != Some(r.transaction)
    requires r.WalletLock? ==> r.wallet != m.source && r.wallet != m.destination
    ensures Untouched(db, Post(db, call, m, arith), r)
  {
    hide PostRows, GetTransaction, EventFor;
    if r.RowLock? { PostLeavesRow(db.transactions, m.related, NewTransaction(call, m), r.transaction); }
  }

  // A posting does not use up the ids of another call.
  lemma PostKeepsLegal(db: Db, call: Call, m: Movement, arith: Arith, other: Call)
    requires m.source in db.wallets && m.destination in db.wallets
    requires Legal(db, Money(other))
    requires call.transactionId != other.transactionId && call.eventId != other.eventId
    ensures Legal(Post(db, call, m, arith), Money(other))
  {
    hide FindTransaction, Text, EventText, EventFor, PostWallets, PostKeys, Entries;
    var row, after := NewTransaction(call, m), Post(db, call, m, arith);
    MarkKeepsIds(db.transactions, m.related);
    var found := GetTransaction(after.transactions, other.transactionId);
    assert found.None? by {
      forall i | 0 <= i < |after.transactions| ensures after.transactions[i].id != other.transactionId { }
    }
    EventIds(call.eventId, row, other.eventId);
  }

  lemma EventIds(eventId: Id, row: Transaction, other: Id)
    requires eventId != other
    ensures EventText(EventFor(eventId, row)) != Text(other)
  {
    hide Text;
    ParseText(eventId);
    ParseText(other);
    hide ParseId;
    assert EventText(EventFor(eventId, row)) == Text(eventId);
  }

  // The writers that are not calls touch no key and no transaction, and a wallet only by its status.
  lemma WriterLeaves(db: Db, op: DbOp, arith: Arith, r: Resource)
    requires !op.Money? && (op.SetStatus? ==> r != WalletLock(op.id))
    ensures Untouched(db, Step(db, op, arith), r)
  {
    hide GetTransaction;
  }

  lemma WriterKeepsLegal(db: Db, op: DbOp, arith: Arith, call: Call)
    requires !op.Money? && Legal(db, Money(call))
    ensures Legal(Step(db, op, arith), Money(call))
  {
    hide GetTransaction, Text;
    var after := Step(db, op, arith);
    forall i | 0 <= i < |after.outbox| ensures EventText(after.outbox[i]) == EventText(db.outbox[i]) { }
  }

  // ---------- The commit ----------

  // At its commit a call is decided as it was when it took its locks, and its statements, run one
  // by one on what it read, make exactly the posting of the serial engine.
  lemma CommitIsStep(db: Db, p: Proc, arith: Arith)
    requires p.task.Move? && p.stage.Writing? && InFlight(db, p)
    ensures var call, m := p.task.call, p.stage.m;
            && Decide(db, call) == Posts(m)
            && Apply(db, ScriptOf(call, p.stage, arith)) == Step(db, Money(call), arith) == Post(db, call, m, arith)
  {
    hide Apply, Script, Post, GetTransaction, Vet;
    ScriptPosts(db, p.task.call, p.stage.m, p.stage.rows, arith);
  }

  // What a call holds when it commits covers everything its posting touches.
  lemma CommitHolds(db: Db, p: Proc)
    requires p.task.Move? && p.stage.Writing? && InFlight(db, p)
    ensures var call, m := p.task.call, p.stage.m;
            && (call.key != "" ==> KeyLock(SlotOf(call)) in Holdings(p))
            && WalletLock(m.source) in Holdings(p) && WalletLock(m.destination) in Holdings(p)
            && (m.related.Some? ==> RowLock(m.related.value) in Holdings(p))
  {
    hide GetTransaction;
  }

  // A row that is locked exists, so it is not the row that a fresh id names.
  lemma LockedRowExists(db: Db, p: Proc, r: Resource, call: Call)
    requires InFlight(db, p) && r in Holdings(p) && r.RowLock? && Legal(db, Money(call))
    ensures r.transaction != call.transactionId
  {
    hide FindTransaction, Vet, Admit;
  }
}
