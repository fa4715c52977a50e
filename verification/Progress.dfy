// Nothing sticks: the calls take their locks in one global order, so some unfinished call can always
// move; and no run goes on for ever.
module Progress {
  import opened Uuid
  import opened Model
  import opened Engine
  import opened Interleaving
  import opened Locking
  import opened Isolation
  import opened Serial
  import Runs

  // ---------- No deadlock ----------

  const ID_LIMIT: nat := 0x1_0000_0000_0000_0000_0000_0000_0000_0000

  // The global order, highest first taken: keys, then transaction rows, then wallets by ascending id.
  function Rank(r: Resource): nat
  {
    match r
    case KeyLock(_) => ID_LIMIT + 1
    case RowLock(_) => ID_LIMIT
    case WalletLock(id) => ID_LIMIT - 1 - id
  }

  // The wallets that a call still has to lock come after those it holds.
  predicate Climbs(p: Proc)
  {
    p.stage.LockingWallets? ==>
      && |p.stage.ids| <= 2
      && (forall i, j | 0 <= i < j < |p.stage.ids| :: p.stage.ids[i] < p.stage.ids[j])
      && (forall held, id | held in p.stage.rows && id in p.stage.ids :: held < id)
  }

  ghost predicate AllClimb(w: World)
  {
    forall i | 0 <= i < |w.procs| :: Climbs(w.procs[i])
  }

  // Whoever holds something wants only what comes later in the order.
  lemma WantsLater(db: Db, p: Proc, r: Resource)
    requires r in Holdings(p) && Climbs(p) && Wanted(db, p).Some?
    ensures Rank(Wanted(db, p).value) < Rank(r)
  {
    hide GetTransaction;
    if p.stage.LockingWallets? {
      if r.WalletLock? { HeldIn(p, r); }
      assert p.stage.ids[0] in p.stage.ids;
    }
  }

  lemma HeldIn(p: Proc, r: Resource)
    requires r in Holdings(p) && p.stage.LockingWallets? && r.WalletLock?
    ensures r.wallet in p.stage.rows
  {
    assert r == WalletLock(r.wallet);
  }

  lemma HolderIsBusy(p: Proc, r: Resource)
    requires r in Holdings(p)
    ensures !Done(p)
  {
  }

  // Following who waits for whom ends at a process that can move.
  lemma SomeoneCanMove(w: World, i: nat) returns (j: nat)
    requires LocksOk(w) && AllFit(w.procs) && AllClimb(w) && i < |w.procs| && !Done(w.procs[i])
    ensures CanAdvance(w, j)
    decreases if Wanted(w.db, w.procs[i]).Some? then Rank(Wanted(w.db, w.procs[i]).value) else 0
  {
    hide Holdings, Climbs, Done, StageFits, Rank;
    var wanted := Wanted(w.db, w.procs[i]);
    if wanted.Some? && wanted.value in w.locks {
      hide Wanted;
      var holder := w.locks[wanted.value];
      HolderIsBusy(w.procs[holder], wanted.value);
      if Wanted(w.db, w.procs[holder]).Some? {
        WantsLater(w.db, w.procs[holder], wanted.value);
        j := SomeoneCanMove(w, holder);
      } else {
        j := holder;
      }
    } else {
      j := i;
    }
  }

  // ---------- No endless run ----------

  // How many statements a process can still make.
  function Weight(p: Proc): (n: nat)
    ensures Done(p) ==> n == 0
  {
    match p.stage
    case Arriving => 18
    case Inserting => 17
    case LockingRow => 16
    case LockingWallets(_, _, ids, _) => 13 + |ids|
    case Writing(_, _, _, done) => 4 + if done <= 8 then 8 - done else 0
    case Refreshing(_, pending, _) => 1 + |pending|
    case RowRead(_) => 2
    case Priming(_) => 1
    case _ => 0
  }

  function TotalWeight(procs: seq<Proc>): nat
  {
    if procs == [] then 0 else Weight(procs[0]) + TotalWeight(procs[1..])
  }

  lemma {:induction false} TotalUpdate(procs: seq<Proc>, i: nat, p: Proc)
    requires i < |procs|
    ensures TotalWeight(procs[i := p]) == TotalWeight(procs) - Weight(procs[i]) + Weight(p)
  {
    hide Weight;
    if i == 0 {
    } else {
      assert procs[i := p][1..] == procs[1..][i - 1 := p];
      TotalUpdate(procs[1..], i - 1, p);
    }
  }

  lemma MoveLightens(db: Db, p: Proc, at: nat, arith: Arith)
    requires p.task.Move? && StageFits(p) && !Done(p) && Climbs(p)
    ensures var q := p.(stage := MoveStage(db, p.task.call, p.stage, at, arith)); Weight(q) < Weight(p) && Climbs(q)
  {
    hide GetTransaction, Vet, Admit;
    if Commits(p, arith) { CommitStage(db, p, at, arith); }
    hide Script;
    if p.stage.LockingWallets? && p.stage.ids != [] {
      var q := p.(stage := MoveStage(db, p.task.call, p.stage, at, arith));
      forall held, id | held in q.stage.rows && id in q.stage.ids ensures held < id {
        assert id in p.stage.ids;
      }
    }
  }

  lemma ReadLightens(db: Db, cache: map<Id, int>, p: Proc)
    requires p.task.Read? && StageFits(p) && !Done(p)
    ensures var q := p.(stage := ReadStage(db, cache, p.task.wallet, p.stage)); Weight(q) < Weight(p) && Climbs(q)
  {
  }

  lemma FaultLightens(p: Proc)
    requires StageFits(p) && !Done(p)
    ensures var q := p.(stage := FaultStage(p)); Weight(q) < Weight(p) && Climbs(q)
  {
  }

  predicate Moves(event: Event) { event.Advance? || event.Fault? }

  lemma NextLightens(w: World, event: Event, arith: Arith)
    requires AllClimb(w) && Enabled(w, event)
    ensures var after := Next(w, event, arith);
            && |after.procs| == |w.procs| && AllClimb(after)
            && TotalWeight(after.procs) + (if Moves(event) then 1 else 0) <= TotalWeight(w.procs)
  {
    hide Climbs, Weight, TotalWeight, StageFits, Done;
    match event
    case Advance(i) =>
      hide LocksAfter, CacheAfter, Commits, ScriptOf, Apply, MoveStage, ReadStage, Wanted;
      var p := w.procs[i];
      if p.task.Move? { MoveLightens(w.db, p, |w.log|, arith); } else { ReadLightens(w.db, w.cache, p); }
      TotalUpdate(w.procs, i, p.(stage := NextStage(w, p, arith)));
    case Fault(i) =>
      hide FaultStage;
      FaultLightens(w.procs[i]);
      TotalUpdate(w.procs, i, w.procs[i].(stage := FaultStage(w.procs[i])));
    case Other(op) =>
    case Expire(id) =>
  }

  function MovesIn(events: seq<Event>): nat
    decreases |events|
  {
    if events == [] then 0
    else MovesIn(events[..|events| - 1]) + if Moves(events[|events| - 1]) then 1 else 0
  }

  lemma {:induction false} RunLightens(w: World, events: seq<Event>, after: World, arith: Arith)
    requires AllClimb(w) && Runs.Leads(Moving(arith), w, events, after)
    ensures AllClimb(after) && TotalWeight(after.procs) + MovesIn(events) <= TotalWeight(w.procs)
    decreases |events|
  {
    hide AllClimb, TotalWeight, Enabled, Next, Moves, Runs.Leads;
    if events == [] {
      Runs.Nowhere(Moving(arith), w, events, after);
    } else {
      var mid := Runs.GoBack(Moving(arith), w, events, after);
      RunLightens(w, events[..|events| - 1], mid, arith);
      NextLightens(mid, events[|events| - 1], arith);
    }
  }

  lemma {:induction false} ArrivingWeight(procs: seq<Proc>)
    requires forall i | 0 <= i < |procs| :: procs[i].stage == Arriving
    ensures TotalWeight(procs) == 18 * |procs|
  {
    if procs == [] {
    } else {
      ArrivingWeight(procs[1..]);
    }
  }

  // ---------- Every run can be finished, and none is endless ----------

  predicate AllDone(procs: seq<Proc>)
  {
    forall i | 0 <= i < |procs| :: Done(procs[i])
  }

  // The processes of a run make at most eighteen statements each, failed ones included.
  lemma RunsAreBounded(init: Db, tasks: seq<Task>, events: seq<Event>, w: World, arith: Arith)
    requires Reaches(init, tasks, events, w, arith)
    ensures AllClimb(w) && TotalWeight(w.procs) + MovesIn(events) <= 18 * |tasks|
  {
    var start := Begin(init, tasks);
    ArrivingWeight(start.procs);
    hide MovesIn, TotalWeight, Runs.Leads, GoodTasks;
    RunLightens(start, events, w, arith);
  }

  lemma SomeMover(init: Db, w: World, arith: Arith) returns (j: nat)
    requires Ordered(init, w, arith) && AllClimb(w) && !AllDone(w.procs)
    ensures CanAdvance(w, j)
  {
    hide Done, AllClimb, StageFits, Wanted, LocksOk, TasksApart, AllFit, AllInFlight, AllCommitted,
        FollowsLog;
    var i :| 0 <= i < |w.procs| && !Done(w.procs[i]);
    j := SomeoneCanMove(w, i);
  }

  // A run has ended exactly when no call can make a statement.
  lemma NoDeadlock(init: Db, tasks: seq<Task>, events: seq<Event>, w: World, arith: Arith)
    requires Reaches(init, tasks, events, w, arith)
    ensures AllDone(w.procs) <==> !exists j :: CanAdvance(w, j)
  {
    hide Reaches, Done, AllClimb, StageFits, Wanted, Ordered, TotalWeight, MovesIn;
    ReachedOrdered(init, tasks, events, w, arith);
    RunsAreBounded(init, tasks, events, w, arith);
    if !AllDone(w.procs) { var j := SomeMover(init, w, arith); }
  }

  predicate OnlyAdvances(events: seq<Event>)
  {
    forall i | 0 <= i < |events| :: events[i].Advance?
  }

  // From wherever a run stands, its calls alone can go on until all of them are done.
  lemma {:induction false} CanFinish(init: Db, w: World, arith: Arith) returns (more: seq<Event>, after: World)
    requires Ordered(init, w, arith) && AllClimb(w)
    ensures OnlyAdvances(more) && Runs.Leads(Moving(arith), w, more, after) && AllDone(after.procs)
    decreases TotalWeight(w.procs)
  {
    hide Ordered, TotalWeight, Next, CanAdvance, AllDone, AllClimb, Runs.Leads;
    Runs.Stay(Moving(arith), w);
    if AllDone(w.procs) {
      more, after := [], w;
    } else {
      var j := SomeMover(init, w, arith);
      var mid := Next(w, Advance(j), arith);
      NextOrdered(init, w, Advance(j), arith);
      NextLightens(w, Advance(j), arith);
      Runs.GoOn(Moving(arith), w, [], w, Advance(j), mid);
      var rest;
      rest, after := CanFinish(init, mid, arith);
      Runs.Join(Moving(arith), w, [] + [Advance(j)], mid, rest, after);
      more := [] + [Advance(j)] + rest;
    }
  }

  lemma EveryRunCanFinish(init: Db, tasks: seq<Task>, events: seq<Event>, w: World, arith: Arith)
      returns (more: seq<Event>, after: World)
    requires Reaches(init, tasks, events, w, arith)
    ensures OnlyAdvances(more) && |more| <= 18 * |tasks|
    ensures Reaches(init, tasks, events + more, after, arith) && AllDone(after.procs)
  {
    ReachedOrdered(init, tasks, events, w, arith);
    RunsAreBounded(init, tasks, events, w, arith);
    hide Ordered, AllClimb, Runs.Leads, TotalWeight, AllDone;
    more, after := CanFinish(init, w, arith);
    Runs.Join(Moving(arith), Begin(init, tasks), events, w, more, after);
    RunsAreBounded(init, tasks, events + more, after, arith);
    AdvancesCount(events, more);
  }

  lemma {:induction false} AdvancesCount(events: seq<Event>, more: seq<Event>)
    requires OnlyAdvances(more)
    ensures MovesIn(events + more) == MovesIn(events) + |more|
    decreases |more|
  {
    if more == [] {
      assert events + more == events;
    } else {
      var n := |more| - 1;
      assert (events + more)[..|events + more| - 1] == events + more[..n];
      AdvancesCount(events, more[..n]);
    }
  }
}
