// Serialisability: whatever the interleaving, the database is the one that the committed calls give
// when run one after another in commit order.
module Serial {
  import opened Wrappers
  import opened Uuid
  import opened Model
  import opened Engine
  import Runs
  import opened Interleaving
  import opened Locking
  import opened Isolation

  // The place of a call's commit in the log, if it has committed.
  function CommitOf(p: Proc): Option<nat>
  {
    match p.stage
    case Refreshing(_, _, at) => if p.task.Move? then Some(at) else None
    case Finished(_, commit) => if p.task.Move? then commit else None
    case _ => None
  }

  // Process i has committed as entry k of the log.
  predicate CommittedAs(w: World, i: nat, k: nat)
    requires i < |w.procs| && k < |w.log|
  {
    w.log[k] == Money(CallOf(w.procs[i].task)) && CommitOf(w.procs[i]) == Some(k)
  }

  function CallOf(task: Task): Call
  {
    match task
    case Move(call) => call
    case Read(wallet) => Call(ReverseRequest(wallet), "", wallet, wallet)
  }

  ghost predicate Committer(w: World, k: nat)
    requires k < |w.log|
  {
    exists i :: 0 <= i < |w.procs| && CommittedAs(w, i, k)
  }

  ghost predicate AllCommitted(w: World)
  {
    forall k {:trigger Committer(w, k)} | 0 <= k < |w.log| && w.log[k].Money? :: Committer(w, k)
  }

  ghost predicate FollowsLog(init: Db, w: World, arith: Arith)
  {
    LegalRun(init, w.log, arith) && w.db == Run(init, w.log, arith)
  }

  predicate IdsApart(a: Task, b: Task)
  {
    a.Move? && b.Move? ==> a.call.transactionId != b.call.transactionId && a.call.eventId != b.call.eventId
  }

  ghost predicate TasksApart(procs: seq<Proc>)
  {
    forall i, j {:trigger IdsApart(procs[i].task, procs[j].task)} | 0 <= i < |procs| && 0 <= j < |procs| && i != j ::
      IdsApart(procs[i].task, procs[j].task)
  }

  ghost predicate AllFit(procs: seq<Proc>)
  {
    forall i {:trigger StageFits(procs[i])} | 0 <= i < |procs| :: StageFits(procs[i])
  }

  // The invariant of every interleaving.
  ghost predicate Ordered(init: Db, w: World, arith: Arith)
  {
    && LocksOk(w) && TasksApart(w.procs) && AllFit(w.procs)
    && AllInFlight(w) && FollowsLog(init, w, arith) && AllCommitted(w)
  }

  // ---------- The log only grows ----------

  lemma RunNext(init: Db, log: seq<DbOp>, op: DbOp, arith: Arith)
    requires LegalRun(init, log, arith) && Legal(Run(init, log, arith), op)
    ensures LegalRun(init, log + [op], arith)
    ensures Run(init, log + [op], arith) == Step(Run(init, log, arith), op, arith)
  {
    hide Legal, Step;
    assert (log + [op])[..|log|] == log;
  }

  // ---------- Steps that leave the database alone ----------

  predicate StaysCommitted(stage: Stage, next: Stage)
  {
    match stage
    case Refreshing(_, _, at) => (next.Refreshing? && next.at == at) || (next.Finished? && next.commit == Some(at))
    case Finished(_, commit) => next.Finished? && next.commit == commit
    case _ => true
  }

  lemma CommitterStays(w: World, after: World, i: nat, k: nat)
    requires i < |w.procs| && k < |w.log| && Committer(w, k)
    requires w.log <= after.log && |after.procs| == |w.procs|
    requires forall j | 0 <= j < |w.procs| && j != i :: after.procs[j] == w.procs[j]
    requires after.procs[i].task == w.procs[i].task && StaysCommitted(w.procs[i].stage, after.procs[i].stage)
    ensures Committer(after, k)
  {
    hide CallOf;
    var j :| 0 <= j < |w.procs| && CommittedAs(w, j, k);
    assert CommittedAs(after, j, k);
  }

  lemma SetStage(init: Db, w: World, i: nat, next: Stage, after: World, arith: Arith)
    requires Ordered(init, w, arith) && i < |w.procs|
    requires var p := w.procs[i].(stage := next);
             && after.db == w.db && after.log == w.log && after.procs == w.procs[i := p]
             && StageFits(p) && InFlight(w.db, p)
    requires LocksOk(after) && StaysCommitted(w.procs[i].stage, next)
    ensures Ordered(init, after, arith)
  {
    hide LocksOk, InFlight, Committer, Run, LegalRun, StageFits, IdsApart;
    forall k | 0 <= k < |after.log| && after.log[k].Money? ensures Committer(after, k) {
      CommitterStays(w, after, i, k);
    }
  }

  lemma ReadsAdvance(db: Db, p: Proc, next: Stage, at: nat, arith: Arith)
    requires p.task.Move? && InFlight(db, p) && !Commits(p, arith)
    requires next == MoveStage(db, p.task.call, p.stage, at, arith)
    ensures InFlight(db, p.(stage := next))
  {
    hide GetTransaction, Vet, Admit, Legal, Script, LockIds;
  }

  lemma MoveFits(db: Db, p: Proc, next: Stage, at: nat, arith: Arith)
    requires p.task.Move? && StageFits(p)
    requires next == MoveStage(db, p.task.call, p.stage, at, arith)
    ensures StageFits(p.(stage := next)) && (!Commits(p, arith) ==> StaysCommitted(p.stage, next))
  {
    hide GetTransaction, Vet, Admit, Script, LockIds;
  }

  lemma QuietAdvance(init: Db, w: World, i: nat, arith: Arith)
    requires Ordered(init, w, arith) && CanAdvance(w, i) && !Commits(w.procs[i], arith)
    ensures Ordered(init, DoAdvance(w, i, arith), arith)
  {
    AdvanceLocks(w, i, arith);
    hide LocksOk, TasksApart, AllCommitted, Run, LegalRun, LocksAfter, CacheAfter, SpansAfter, MoveStage, Commits,
        InFlight;
    hide Ordered;
    OrderedParts(init, w, i, arith);
    var p, after := w.procs[i], DoAdvance(w, i, arith);
    var next := NextStage(w, p, arith);
    if p.task.Move? {
      hide StageFits;
      ReadsAdvance(w.db, p, next, |w.log|, arith);
      MoveFits(w.db, p, next, |w.log|, arith);
    } else {
      ReadFits(w.db, w.cache, p, next);
    }
    hide NextStage, CanAdvance;
    SetStage(init, w, i, next, after, arith);
  }

  lemma OrderedParts(init: Db, w: World, i: nat, arith: Arith)
    requires Ordered(init, w, arith) && i < |w.procs|
    ensures w.db == Run(init, w.log, arith) && LegalRun(init, w.log, arith) && StageFits(w.procs[i])
    ensures InFlight(w.db, w.procs[i])
  {
    hide LocksOk, TasksApart, AllCommitted, Run, LegalRun, StageFits, InFlight;
  }

  lemma ReadFits(db: Db, cache: map<Id, int>, p: Proc, next: Stage)
    requires p.task.Read? && StageFits(p) && next == ReadStage(db, cache, p.task.wallet, p.stage)
    ensures StageFits(p.(stage := next)) && StaysCommitted(p.stage, next) && InFlight(db, p.(stage := next))
  {
  }

  lemma FaultFits(db: Db, p: Proc)
    requires StageFits(p) && !Done(p) && InFlight(db, p)
    ensures var q := p.(stage := FaultStage(p)); StageFits(q) && StaysCommitted(p.stage, q.stage) && InFlight(db, q)
  {
    hide GetTransaction, Vet, Admit, Legal, LockIds;
  }

  lemma FaultStep(init: Db, w: World, i: nat, arith: Arith)
    requires Ordered(init, w, arith) && CanFail(w, i)
    ensures Ordered(init, DoFault(w, i), arith)
  {
    FaultLocks(w, i);
    OrderedParts(init, w, i, arith);
    hide LocksOk, TasksApart, AllCommitted, Run, LegalRun, InFlight, Ordered, StageFits, FaultStage, Done, SpansAfter;
    FaultFits(w.db, w.procs[i]);
    SetStage(init, w, i, FaultStage(w.procs[i]), DoFault(w, i), arith);
  }

  // ---------- Steps that change the database ----------

  // The invariants of the processes that do not move, when the log grows by one writer.
  predicate Framed(w: World, after: World, op: DbOp, i: int)
  {
    && after.log == w.log + [op] && |after.procs| == |w.procs|
    && (forall j | 0 <= j < |w.procs| && j != i :: after.procs[j] == w.procs[j])
    && (0 <= i < |w.procs| ==>
          after.procs[i].task == w.procs[i].task && !w.procs[i].stage.Refreshing? && !w.procs[i].stage.Finished?)
  }

  lemma GrownCommitters(w: World, after: World, op: DbOp, i: int)
    requires AllCommitted(w) && Framed(w, after, op, i)
    requires op.Money? ==> Committer(after, |w.log|)
    ensures AllCommitted(after)
  {
    hide Committer;
    forall k | 0 <= k < |after.log| && after.log[k].Money? ensures Committer(after, k) {
      if k < |w.log| { CommitterKept(w, after, op, i, k); }
    }
  }

  lemma CommitterKept(w: World, after: World, op: DbOp, i: int, k: nat)
    requires Framed(w, after, op, i) && k < |w.log| && Committer(w, k)
    ensures Committer(after, k)
  {
    hide CallOf;
    var j :| 0 <= j < |w.procs| && CommittedAs(w, j, k);
    assert CommittedAs(after, j, k);
  }

  // Another call's posting leaves a call in flight as it was.
  lemma PostingKeepsOther(w: World, i: nat, j: nat, arith: Arith)
    requires LocksOk(w) && i < |w.procs| && j < |w.procs| && i != j
    requires InFlight(w.db, w.procs[i]) && InFlight(w.db, w.procs[j]) && IdsApart(w.procs[i].task, w.procs[j].task)
    requires w.procs[i].task.Move? && w.procs[i].stage.Writing?
    ensures InFlight(Step(w.db, Money(w.procs[i].task.call), arith), w.procs[j])
  {
    hide LocksOk, InFlight, Holdings, Step, Post, Untouched, Legal;
    var p, q := w.procs[i], w.procs[j];
    if q.task.Move? && Uncommitted(q.stage) {
      var call, m := p.task.call, p.stage.m;
      CommitIsStep(w.db, p, arith);
      LegalNow(w.db, p);
      LegalNow(w.db, q);
      PostKeepsLegal(w.db, call, m, arith, q.task.call);
      CommitHolds(w.db, p);
      forall r | r in Holdings(q) ensures Untouched(w.db, Post(w.db, call, m, arith), r) {
        if r in Holdings(p) { Exclusive(w, i, j, r); }
        if r.RowLock? { LockedRowExists(w.db, q, r, call); }
        PostLeaves(w.db, call, m, arith, r);
      }
      ReadsStay(w.db, Post(w.db, call, m, arith), q);
    } else {
      NotInFlight(Step(w.db, Money(p.task.call), arith), q);
    }
  }

  lemma LegalNow(db: Db, p: Proc)
    requires InFlight(db, p) && p.task.Move? && Uncommitted(p.stage)
    ensures Legal(db, Money(p.task.call))
  {
  }

  lemma NotInFlight(db: Db, p: Proc)
    requires !(p.task.Move? && Uncommitted(p.stage))
    ensures InFlight(db, p)
  {
  }

  lemma CommitStage(db: Db, p: Proc, at: nat, arith: Arith)
    requires p.task.Move? && Commits(p, arith)
    ensures MoveStage(db, p.task.call, p.stage, at, arith)
         == Refreshing(Response(201, NewTransaction(p.task.call, p.stage.m)), NewBalances(p.stage, arith), at)
  {
    hide ScriptOf, NewBalances, NewTransaction;
  }

  lemma CommitShape(w: World, i: nat, arith: Arith)
    requires CanAdvance(w, i) && Commits(w.procs[i], arith) && InFlight(w.db, w.procs[i])
    ensures var p, after := w.procs[i], DoAdvance(w, i, arith);
            var next := MoveStage(w.db, p.task.call, p.stage, |w.log|, arith);
            && after.db == Step(w.db, Money(p.task.call), arith) && after.log == w.log + [Money(p.task.call)]
            && after.procs == w.procs[i := p.(stage := next)]
  {
    CommitIsStep(w.db, w.procs[i], arith);
    hide InFlight, MoveStage, ScriptOf, Apply, Step, Post, Decide, LocksAfter, CacheAfter, SpansAfter, StageFits,
        Wanted;
  }

  lemma CommitKeepsOthers(w: World, i: nat, stage: Stage, arith: Arith)
    requires LocksOk(w) && AllInFlight(w) && TasksApart(w.procs)
    requires i < |w.procs| && w.procs[i].task.Move? && w.procs[i].stage.Writing? && stage.Refreshing?
    ensures var procs := w.procs[i := w.procs[i].(stage := stage)];
            forall j | 0 <= j < |procs| :: InFlight(Step(w.db, Money(w.procs[i].task.call), arith), procs[j])
  {
    hide LocksOk, InFlight, IdsApart, Step;
    var procs := w.procs[i := w.procs[i].(stage := stage)];
    var db := Step(w.db, Money(w.procs[i].task.call), arith);
    forall j | 0 <= j < |procs| ensures InFlight(db, procs[j]) {
      if j == i {
        NotInFlight(db, procs[i]);
      } else {
        PostingKeepsOther(w, i, j, arith);
      }
    }
  }

  lemma SameTasks(procs: seq<Proc>, i: nat, stage: Stage)
    requires TasksApart(procs) && AllFit(procs) && i < |procs| && StageFits(procs[i].(stage := stage))
    ensures TasksApart(procs[i := procs[i].(stage := stage)]) && AllFit(procs[i := procs[i].(stage := stage)])
  {
    hide IdsApart, StageFits;
  }

  lemma CommitAdvance(init: Db, w: World, i: nat, arith: Arith)
    requires Ordered(init, w, arith) && CanAdvance(w, i) && Commits(w.procs[i], arith)
    ensures Ordered(init, DoAdvance(w, i, arith), arith)
  {
    hide TasksApart, AllFit, AllInFlight, AllCommitted, LocksOk, Run, LegalRun, InFlight, Step, MoveStage, Legal;
    AdvanceLocks(w, i, arith);
    OrderedParts(init, w, i, arith);
    CommitShape(w, i, arith);
    var p, after := w.procs[i], DoAdvance(w, i, arith);
    CommitStage(w.db, p, |w.log|, arith);
    LegalNow(w.db, p);
    hide DoAdvance, CanAdvance, Commits, NewBalances, NewTransaction;
    var op := Money(p.task.call);
    RunNext(init, w.log, op, arith);
    assert CommittedAs(after, i, |w.log|);
    GrownCommitters(w, after, op, i);
    SameTasks(w.procs, i, after.procs[i].stage);
    CommitKeepsOthers(w, i, after.procs[i].stage, arith);
    assert AllInFlight(after) by { CommitAllInFlight(after); }
  }

  lemma CommitAllInFlight(w: World)
    requires forall j | 0 <= j < |w.procs| :: InFlight(w.db, w.procs[j])
    ensures AllInFlight(w)
  {
    hide InFlight;
  }

  lemma OtherStep(init: Db, w: World, op: DbOp, arith: Arith)
    requires Ordered(init, w, arith) && Enabled(w, Other(op))
    ensures Ordered(init, Next(w, Other(op), arith), arith)
  {
    NextLocks(w, Other(op), arith);
    var after := Next(w, Other(op), arith);
    hide LocksOk, Run, LegalRun, Step, InFlight, AllCommitted, IdsApart, StageFits;
    RunNext(init, w.log, op, arith);
    assert Framed(w, after, op, -1);
    GrownCommitters(w, after, op, -1);
    forall j | 0 <= j < |w.procs| ensures InFlight(after.db, after.procs[j]) {
      WriterKeepsOther(w, op, j, arith);
    }
  }

  lemma WriterKeepsOther(w: World, op: DbOp, j: nat, arith: Arith)
    requires LocksOk(w) && j < |w.procs| && InFlight(w.db, w.procs[j]) && Enabled(w, Other(op))
    ensures InFlight(Step(w.db, op, arith), w.procs[j])
  {
    hide InFlight, Holdings, Step, Untouched, Legal;
    var q := w.procs[j];
    if q.task.Move? && Uncommitted(q.stage) {
      LegalNow(w.db, q);
      WriterKeepsLegal(w.db, op, arith, q.task.call);
      forall r | r in Holdings(q) ensures Untouched(w.db, Step(w.db, op, arith), r) {
        assert r in w.locks;
        WriterLeaves(w.db, op, arith, r);
      }
      ReadsStay(w.db, Step(w.db, op, arith), q);
    } else {
      NotInFlight(Step(w.db, op, arith), q);
    }
  }

  // ---------- Runs ----------

  lemma NextOrdered(init: Db, w: World, event: Event, arith: Arith)
    requires Ordered(init, w, arith) && Enabled(w, event)
    ensures Ordered(init, Next(w, event, arith), arith)
  {
    match event
    case Advance(i) =>
      hide Ordered, DoAdvance, CanAdvance;
      if Commits(w.procs[i], arith) { CommitAdvance(init, w, i, arith); } else { QuietAdvance(init, w, i, arith); }
    case Fault(i) => hide Ordered, DoFault, CanFail; FaultStep(init, w, i, arith);
    case Other(op) => hide Ordered; OtherStep(init, w, op, arith);
    case Expire(id) =>
      NextLocks(w, event, arith);
      hide LocksOk, InFlight, Committer, Run, LegalRun, StageFits, IdsApart;
      ExpireCommitters(w, event, arith);
  }

  lemma ExpireCommitters(w: World, event: Event, arith: Arith)
    requires event.Expire? && AllCommitted(w)
    ensures AllCommitted(Next(w, event, arith))
  {
    hide CallOf;
    var after := Next(w, event, arith);
    forall k | 0 <= k < |after.log| && after.log[k].Money? ensures Committer(after, k) {
      assert Committer(w, k);
      var j :| 0 <= j < |w.procs| && CommittedAs(w, j, k);
      assert CommittedAs(after, j, k);
    }
  }

  lemma BeginOrdered(init: Db, tasks: seq<Task>, arith: Arith)
    requires GoodTasks(init, tasks)
    ensures Ordered(init, Begin(init, tasks), arith)
  {
    hide Fresh, ValidRequest;
    var w := Begin(init, tasks);
    forall i | 0 <= i < |w.procs| ensures w.procs[i] == Proc(tasks[i], Arriving) && Holdings(w.procs[i]) == {} { }
  }

  lemma {:induction false} RunOrdered(init: Db, w: World, events: seq<Event>, after: World, arith: Arith)
    requires Ordered(init, w, arith) && Runs.Leads(Moving(arith), w, events, after)
    ensures Ordered(init, after, arith)
    decreases |events|
  {
    hide Ordered, Enabled, Next, Runs.Leads;
    if events == [] {
      Runs.Nowhere(Moving(arith), w, events, after);
    } else {
      var mid := Runs.GoBack(Moving(arith), w, events, after);
      RunOrdered(init, w, events[..|events| - 1], mid, arith);
      NextOrdered(init, mid, events[|events| - 1], arith);
    }
  }

  lemma ReachedOrdered(init: Db, tasks: seq<Task>, events: seq<Event>, w: World, arith: Arith)
    requires Reaches(init, tasks, events, w, arith)
    ensures Ordered(init, w, arith)
  {
    BeginOrdered(init, tasks, arith);
    hide Ordered, Runs.Leads;
    RunOrdered(init, Begin(init, tasks), events, w, arith);
  }

  // Every interleaving of calls, failures, balance reads, other writers and cache expiry leaves the
  // database that the log gives when run serially; the log holds exactly the committed calls and
  // the other writers, in the order of their commits.
  lemma Serialisable(init: Db, tasks: seq<Task>, events: seq<Event>, w: World, arith: Arith)
    requires Reaches(init, tasks, events, w, arith)
    ensures LegalRun(init, w.log, arith) && w.db == Run(init, w.log, arith)
    ensures forall k | 0 <= k < |w.log| && w.log[k].Money? :: Committer(w, k)
  {
    hide Reaches, LocksOk, InFlight, Committer, Run, LegalRun, StageFits, IdsApart;
    ReachedOrdered(init, tasks, events, w, arith);
  }
}
