// The balances are int64: while the money that came in and stayed fits, no update wraps and the
// real machine is the unbounded one.
module Bounds {
  import opened Uuid
  import opened Model
  import opened Engine
  import opened Sums
  import opened Books

  // What a caller can check before a top-up.
  predicate WithinLimit(db: Db, op: DbOp)
  {
    op.Money? && op.call.request.TopUpRequest?
    ==> Sum(db.transactions, LiveTopUps) + op.call.request.amount <= MAX_INT64
  }

  // ... and before every top-up of a run.
  predicate RunWithinLimit(ops: seq<DbOp>)
    decreases |ops|
  {
    ops == [] ||
    (RunWithinLimit(ops[..|ops| - 1]) && WithinLimit(Run(SEEDED, ops[..|ops| - 1], Unbounded), ops[|ops| - 1]))
  }

  predicate Bounded(wallets: map<Id, Wallet>, limit: int)
  {
    forall id | id in wallets :: -limit <= wallets[id].balance <= limit
  }

  // The live top-ups cover everything the system wallet owes.
  lemma {:induction false} TopUpsCover(rows: seq<Transaction>, wallets: map<Id, Wallet>)
    requires RowsOk(rows, wallets)
    ensures Sum(rows, LiveMoves(SYSTEM_WALLET_ID)) >= -Sum(rows, LiveTopUps)
    decreases |rows|
  {
    if rows == [] {
    } else {
      TopUpsCover(rows[..|rows| - 1], wallets);
      assert WellFormed(rows[|rows| - 1], wallets);
    }
  }

  // Every balance lies within the live top-ups.
  lemma BalancesBounded(db: Db)
    requires Sound(db)
    ensures Bounded(db.wallets, Sum(db.transactions, LiveTopUps))
  {
    hide Sum, LedgerNet, Total, KeysOk, OutboxOk, ReversalsMatch, DoubleEntry, IdsDistinct;
    TopUpsCover(db.transactions, db.wallets);
    SystemOwes(db.wallets);
  }

  lemma PostTopUps(rows: seq<Transaction>, call: Call, m: Movement)
    requires RelatedOk(rows, m) && m.amount > 0
    ensures Sum(PostRows(rows, m.related, NewTransaction(call, m)), LiveTopUps)
         <= Sum(rows, LiveTopUps) + if m.kind == TopUp then m.amount else 0
  {
    hide FindTransaction, Sum;
    var row := NewTransaction(call, m);
    SumAppend(MarkReversed(rows, m.related), row, LiveTopUps);
    if m.related.Some? {
      var i := FindTransaction(rows, m.related.value).value;
      SumUpdate(rows, i, rows[i].(status := Reversed), LiveTopUps);
    }
  }

  lemma NoWrap(wallets: map<Id, Wallet>, m: Movement)
    requires m.source in wallets && m.destination in wallets && m.source != m.destination
    requires Bounded(PostWallets(wallets, m, Unbounded), MAX_INT64)
    ensures PostWallets(wallets, m, Int64) == PostWallets(wallets, m, Unbounded)
  {
    var after := PostWallets(wallets, m, Unbounded);
    assert m.source in after && m.destination in after;
    assert after[m.source] == Moved(wallets[m.source], -m.amount, Unbounded);
  }

  lemma PostAgrees(db: Db, call: Call, m: Movement)
    requires Sound(db) && Legal(db, Money(call)) && WithinLimit(db, Money(call))
    requires Sum(db.transactions, LiveTopUps) <= MAX_INT64 && Decide(db, call) == Posts(m)
    ensures Post(db, call, m, Int64) == Post(db, call, m, Unbounded)
    ensures Sum(Post(db, call, m, Unbounded).transactions, LiveTopUps) <= MAX_INT64
  {
    hide Sound, Sum, PostRows, RelatedOk, PostKeys, EventFor, Entries, Decide, Fresh, FindTransaction;
    PostsAreMovable(db, call, m);
    PostKeepsSound(db, call, m);
    if m.kind == TopUp { AmountRequested(db, call, m); }
    var after := Post(db, call, m, Unbounded);
    PostTopUps(db.transactions, call, m);
    BalancesBounded(after);
    NoWrap(db.wallets, m);
  }

  lemma AmountRequested(db: Db, call: Call, m: Movement)
    requires Decide(db, call) == Posts(m) && m.kind == TopUp
    ensures call.request.TopUpRequest? && m.amount == call.request.amount
  {
    hide FindTransaction;
  }

  lemma StepAgrees(db: Db, op: DbOp)
    requires Sound(db) && Legal(db, op) && WithinLimit(db, op) && Sum(db.transactions, LiveTopUps) <= MAX_INT64
    ensures Step(db, op, Int64) == Step(db, op, Unbounded)
    ensures Sum(Step(db, op, Unbounded).transactions, LiveTopUps) <= MAX_INT64
  {
    hide Sound, Sum, Post;
    if op.Money? && Decide(db, op.call).Posts? {
      PostAgrees(db, op.call, Decide(db, op.call).movement);
    }
  }

  // Step for step the int64 machine is the unbounded one, and no balance leaves the live top-ups.
  lemma {:induction false} RunAgrees(ops: seq<DbOp>)
    requires LegalRun(SEEDED, ops, Unbounded) && RunWithinLimit(ops)
    ensures Run(SEEDED, ops, Int64) == Run(SEEDED, ops, Unbounded)
    ensures LegalRun(SEEDED, ops, Int64)
    ensures Sum(Run(SEEDED, ops, Int64).transactions, LiveTopUps) <= MAX_INT64
    ensures Bounded(Run(SEEDED, ops, Int64).wallets, Sum(Run(SEEDED, ops, Int64).transactions, LiveTopUps))
    decreases |ops|
  {
    hide Sound, Step, Legal, Bounded, WithinLimit;
    RunIsSound(ops);
    if ops == [] {
    } else {
      var earlier := ops[..|ops| - 1];
      RunAgrees(earlier);
      RunIsSound(earlier);
      StepAgrees(Run(SEEDED, earlier, Unbounded), ops[|ops| - 1]);
    }
    BalancesBounded(Run(SEEDED, ops, Unbounded));
  }

  // A run is legal on int64 if and only if it is on unbounded integers.
  lemma {:induction false} LegalEitherWay(ops: seq<DbOp>)
    requires RunWithinLimit(ops)
    ensures LegalRun(SEEDED, ops, Int64) <==> LegalRun(SEEDED, ops, Unbounded)
    decreases |ops|
  {
    hide Step, Legal, Bounded, WithinLimit;
    if ops == [] {
    } else {
      var earlier := ops[..|ops| - 1];
      LegalEitherWay(earlier);
      if LegalRun(SEEDED, earlier, Unbounded) { RunAgrees(earlier); }
    }
  }
}
