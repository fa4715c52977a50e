// What serialisability gives the callers: concurrent calls cannot reach a database that serial calls
// cannot, a key commits once, and a transaction is reversed once.
module Outcomes {
  import opened Wrappers
  import opened Uuid
  import opened Model
  import opened Engine
  import opened Books
  import opened Bounds
  import opened Guarantees
  import opened Interleaving
  import opened Locking
  import opened Isolation
  import opened Serial
  import opened Replies

  // ---------- Reachable databases ----------

  // Concurrent calls lead only where serial calls lead, so every promise about reachable databases
  // holds under any interleaving.
  lemma ConcurrentIsReachable(init: Db, tasks: seq<Task>, events: seq<Event>, w: World)
    requires Reachable(init) && Reaches(init, tasks, events, w, Unbounded)
    ensures Reachable(w.db)
  {
    hide Reachable, Reaches;
    Serialisable(init, tasks, events, w, Unbounded);
    RunIsReachable(init, w.log);
  }

  // The same on int64 balances, from the seeded database, while the top-ups committed fit.
  lemma ConcurrentInt64IsReachable(tasks: seq<Task>, events: seq<Event>, w: World)
    requires Reaches(SEEDED, tasks, events, w, Int64) && RunWithinLimit(w.log)
    ensures Reachable(w.db) && w.db == Run(SEEDED, w.log, Unbounded)
  {
    hide Reachable, Reaches, RunWithinLimit, Run, LegalRun, Bounded;
    Serialisable(SEEDED, tasks, events, w, Int64);
    LegalEitherWay(w.log);
    RunAgrees(w.log);
    SeededIsReachable();
    RunIsReachable(SEEDED, w.log);
  }

  lemma ReachableAnswers(db: Db)
    requires Reachable(db)
    ensures KeysAnswered(db.keys)
  {
    hide Reachable, GetTransaction;
    KeyTables(db);
    forall slot | slot in db.keys ensures db.keys[slot].response.Some? {
      assert Keeps(db.keys[slot], slot, db.transactions);
    }
  }

  // ---------- One commit ----------

  // Two calls that exclude each other: the same key at the same endpoint, or a reversal of the same transaction.
  predicate Rivals(a: Call, b: Call)
  {
    (a.key != "" && SlotOf(a) == SlotOf(b))
    || (a.request.ReverseRequest? && b.request.ReverseRequest? && a.request.transaction == b.request.transaction)
  }

  predicate ReversedRow(rows: seq<Transaction>, id: Id)
  {
    var row := GetTransaction(rows, id);
    row.Some? && row.value.status == Reversed
  }

  // The call can no longer be posted.
  predicate Spent(db: Db, call: Call)
  {
    (call.key != "" && SlotOf(call) in db.keys)
    || (call.request.ReverseRequest? && ReversedRow(db.transactions, call.request.transaction))
  }

  lemma SpentNeverPosts(db: Db, call: Call)
    requires Spent(db, call)
    ensures !Decide(db, call).Posts?
  {
    hide FindTransaction;
  }

  lemma MarkedIsReversed(rows: seq<Transaction>, row: Transaction, id: Id)
    requires GetTransaction(rows, id).Some? && row.id != id
    ensures ReversedRow(PostRows(rows, Some(id), row), id)
  {
    var marked := MarkReversed(rows, Some(id));
    MarkKeepsIds(rows, Some(id));
    FindAfterMark(rows, marked, id);
    FindInExtended(marked, row, id);
    hide FindTransaction;
  }

  lemma ReversedStays(db: Db, op: DbOp, arith: Arith, id: Id)
    requires ReversedRow(db.transactions, id) && Legal(db, op)
    ensures ReversedRow(Step(db, op, arith).transactions, id)
  {
    hide FindTransaction, Text, EventText, PostWallets, PostKeys, PostRows, EventFor, Entries, Admit, Lookup;
    if op.Money? && Decide(db, op.call).Posts? {
      var m := Decide(db, op.call).movement;
      PostLeavesRow(db.transactions, m.related, NewTransaction(op.call, m), id);
    }
  }

  lemma SpentStays(db: Db, op: DbOp, arith: Arith, call: Call)
    requires Spent(db, call) && Legal(db, op)
    ensures Spent(Step(db, op, arith), call)
  {
    hide ReversedRow, Legal, PostWallets, PostRows, EventFor, Entries, Decide;
    if call.request.ReverseRequest? && ReversedRow(db.transactions, call.request.transaction) {
      ReversedStays(db, op, arith, call.request.transaction);
    }
  }

  lemma PostSpends(db: Db, call: Call, arith: Arith, rival: Call)
    requires Decide(db, call).Posts? && Legal(db, Money(call)) && Rivals(call, rival)
    ensures Spent(Step(db, Money(call), arith), rival)
  {
    hide FindTransaction, Text, EventText, PostWallets, PostRows, EventFor, Entries, Admit, Lookup, ReversedRow;
    var m := Decide(db, call).movement;
    if call.key == "" || SlotOf(call) != SlotOf(rival) {
      MarkedIsReversed(db.transactions, NewTransaction(call, m), call.request.transaction);
    }
  }

  // Once a call is posted, no rival of it is posted later in the log.
  lemma {:induction false} SpentFrom(init: Db, log: seq<DbOp>, arith: Arith, k: nat, n: nat, rival: Call)
    requires LegalRun(init, log, arith) && k < n <= |log| && log[k].Money? && Rivals(log[k].call, rival)
    requires Decide(Run(init, log[..k], arith), log[k].call).Posts?
    ensures Spent(Run(init, log[..n], arith), rival)
    decreases n
  {
    hide Decide, Legal, Spent, Rivals, Step;
    LegalAt(init, log, arith, n - 1);
    assert log[..n][..n - 1] == log[..n - 1];
    if k == n - 1 {
      PostSpends(Run(init, log[..k], arith), log[k].call, arith, rival);
    } else {
      SpentFrom(init, log, arith, k, n - 1, rival);
      SpentStays(Run(init, log[..n - 1], arith), log[n - 1], arith, rival);
    }
  }

  lemma {:induction false} LegalAt(init: Db, log: seq<DbOp>, arith: Arith, n: nat)
    requires LegalRun(init, log, arith) && n < |log|
    ensures Legal(Run(init, log[..n], arith), log[n])
    decreases |log|
  {
    hide Legal, Step;
    if n == |log| - 1 {
    } else {
      assert log[..|log| - 1][..n] == log[..n];
      LegalAt(init, log[..|log| - 1], arith, n);
    }
  }

  // However many calls pass the unlocked look-up before any of them inserts, one of them commits;
  // and however many reverse one transaction at once, one of them does.
  lemma RivalsCommitOnce(init: Db, tasks: seq<Task>, events: seq<Event>, w: World, arith: Arith, i: nat, j: nat)
    requires Reaches(init, tasks, events, w, arith) && i < |w.procs| && j < |w.procs|
    requires CommitOf(w.procs[i]).Some? && CommitOf(w.procs[j]).Some?
    requires Rivals(w.procs[i].task.call, w.procs[j].task.call)
    ensures i == j
  {
    hide Reaches;
    ReachedReplied(init, tasks, events, w, arith);
    hide AllReplied, Ordered;
    if i != j {
      CommitsApart(init, w, arith, i, j);
      Uncommittable(init, w, arith, i, j);
      Uncommittable(init, w, arith, j, i);
    }
  }

  lemma CommitPlace(init: Db, w: World, arith: Arith, i: nat) returns (response: Response)
    requires AllReplied(init, w, arith) && i < |w.procs| && CommitOf(w.procs[i]).Some?
    ensures PostedAt(init, w.log, arith, w.procs[i].task.call, CommitOf(w.procs[i]).value, response)
  {
    hide PostedAt, AnsweredBetween, TakenBetween;
    assert Replied(init, w.log, arith, w.procs[i], w.spans[i]);
    response := if w.procs[i].stage.Refreshing? then w.procs[i].stage.response else w.procs[i].stage.reply.value;
  }

  lemma CommitsApart(init: Db, w: World, arith: Arith, i: nat, j: nat)
    requires Ordered(init, w, arith) && AllReplied(init, w, arith) && i < |w.procs| && j < |w.procs| && i != j
    requires CommitOf(w.procs[i]).Some? && CommitOf(w.procs[j]).Some?
    ensures CommitOf(w.procs[i]).value != CommitOf(w.procs[j]).value
  {
    hide LocksOk, InFlight, Committer, Run, LegalRun, StageFits, Decide, Answer, AllReplied;
    var _ := CommitPlace(init, w, arith, i);
    var _ := CommitPlace(init, w, arith, j);
    assert IdsApart(w.procs[i].task, w.procs[j].task);
  }

  lemma Uncommittable(init: Db, w: World, arith: Arith, i: nat, j: nat)
    requires Ordered(init, w, arith) && AllReplied(init, w, arith) && i < |w.procs| && j < |w.procs|
    requires CommitOf(w.procs[i]).Some? && CommitOf(w.procs[j]).Some?
    requires Rivals(w.procs[i].task.call, w.procs[j].task.call)
    ensures CommitOf(w.procs[j]).value <= CommitOf(w.procs[i]).value
  {
    hide LocksOk, InFlight, Committer, Run, LegalRun, StageFits, Decide, Answer, IdsApart, Rivals, Spent, AllReplied;
    var k, n := CommitOf(w.procs[i]).value, CommitOf(w.procs[j]).value;
    var _ := CommitPlace(init, w, arith, i);
    var _ := CommitPlace(init, w, arith, j);
    hide CommitOf;
    if k < n {
      SpentFrom(init, w.log, arith, k, n, w.procs[j].task.call);
      SpentNeverPosts(Run(init, w.log[..n], arith), w.procs[j].task.call);
    }
  }
}
