// Who holds what: the lock table always says exactly what the stages of the processes say.
module Locking {
  import opened Wrappers
  import opened Model
  import opened Engine
  import opened Interleaving

  ghost predicate Owned(w: World)
  {
    forall r | r in w.locks :: w.locks[r] < |w.procs| && r in Holdings(w.procs[w.locks[r]])
  }

  ghost predicate Held(w: World)
  {
    forall i, r | 0 <= i < |w.procs| && r in Holdings(w.procs[i]) :: r in w.locks && w.locks[r] == i
  }

  ghost predicate LocksOk(w: World)
  {
    Owned(w) && Held(w)
  }

  // Two processes never hold the same thing.
  lemma Exclusive(w: World, i: nat, j: nat, r: Resource)
    requires LocksOk(w) && i < |w.procs| && j < |w.procs|
    requires r in Holdings(w.procs[i]) && r in Holdings(w.procs[j])
    ensures i == j
  {
    hide Holdings;
    assert r in w.locks && w.locks[r] == i;
  }

  // A statement that does not end the process adds to its holdings just what it wanted.
  lemma HoldingsGrow(w: World, i: nat, arith: Arith)
    requires CanAdvance(w, i)
    requires !LetsGo(NextStage(w, w.procs[i], arith))
    ensures Holdings(w.procs[i].(stage := NextStage(w, w.procs[i], arith)))
         == Holdings(w.procs[i])
            + match Wanted(w.db, w.procs[i]) case Some(r) => {r} case None => {}
  {
    hide FindTransaction, Script, ScriptOf, Lookup, Admit;
    var p := w.procs[i];
    var next := NextStage(w, p, arith);
    if p.task.Move? && p.stage.LockingWallets? && p.stage.ids != [] && p.stage.ids[0] in w.db.wallets {
      assert WalletPart(next.rows) == WalletPart(p.stage.rows) + {WalletLock(p.stage.ids[0])};
    }
    if p.task.Move? && p.stage.LockingRow? {
      assert WalletPart(map[]) == {};
    }
  }

  lemma NothingHeld(p: Proc, stage: Stage)
    requires LetsGo(stage)
    ensures Holdings(p.(stage := stage)) == {}
  {
  }

  lemma ReleaseOk(w: World, i: nat, p: Proc, taken: map<Resource, nat>, after: World)
    requires LocksOk(w) && i < |w.procs| && Holdings(p) == {}
    requires taken == w.locks || exists r :: r !in w.locks && taken == w.locks[r := i]
    requires after.procs == w.procs[i := p] && after.locks == Release(taken, i)
    ensures LocksOk(after)
  {
    hide Holdings;
  }

  lemma TakeOk(w: World, i: nat, p: Proc, wanted: Option<Resource>, after: World)
    requires LocksOk(w) && i < |w.procs|
    requires wanted.Some? ==> wanted.value !in w.locks
    requires Holdings(p) == Holdings(w.procs[i]) + match wanted case Some(r) => {r} case None => {}
    requires after.procs == w.procs[i := p]
    requires after.locks == match wanted case Some(r) => w.locks[r := i] case None => w.locks
    ensures LocksOk(after)
  {
    hide Holdings;
  }

  lemma AdvanceLocks(w: World, i: nat, arith: Arith)
    requires LocksOk(w) && CanAdvance(w, i)
    ensures LocksOk(DoAdvance(w, i, arith))
  {
    var p := w.procs[i];
    var next := NextStage(w, p, arith);
    var after := DoAdvance(w, i, arith);
    assert after.procs == w.procs[i := p.(stage := next)] && after.locks == LocksAfter(w, i, next) by {
      hide NextStage, Wanted, Commits, ScriptOf, LocksAfter, CacheAfter;
    }
    hide Holdings, NextStage, DoAdvance, LocksOk;
    var taken := match Wanted(w.db, p) case Some(r) => w.locks[r := i] case None => w.locks;
    if LetsGo(next) {
      NothingHeld(p, next);
      hide Wanted;
      ReleaseOk(w, i, p.(stage := next), taken, after);
    } else {
      HoldingsGrow(w, i, arith);
      hide Wanted;
      TakeOk(w, i, p.(stage := next), Wanted(w.db, p), after);
    }
  }

  lemma FaultHoldings(p: Proc)
    requires StageFits(p) && !Done(p)
    ensures var next := FaultStage(p);
            if LetsGo(next) then Holdings(p.(stage := next)) == {} else Holdings(p.(stage := next)) == Holdings(p)
  {
  }

  lemma FaultLocks(w: World, i: nat)
    requires LocksOk(w) && CanFail(w, i)
    ensures LocksOk(DoFault(w, i))
  {
    hide Holdings, FaultStage, LocksOk;
    var p := w.procs[i];
    var next := FaultStage(p);
    FaultHoldings(p);
    if LetsGo(next) {
      ReleaseOk(w, i, p.(stage := next), w.locks, DoFault(w, i));
    } else {
      TakeOk(w, i, p.(stage := next), None, DoFault(w, i));
    }
  }

  lemma SameLocks(w: World, after: World)
    requires LocksOk(w) && after.procs == w.procs && after.locks == w.locks
    ensures LocksOk(after)
  {
    hide Holdings;
  }

  lemma NextLocks(w: World, event: Event, arith: Arith)
    requires LocksOk(w) && Enabled(w, event)
    ensures LocksOk(Next(w, event, arith))
  {
    hide LocksOk, DoAdvance, CanAdvance, DoFault, CanFail, Step;
    match event
    case Advance(i) => AdvanceLocks(w, i, arith);
    case Fault(i) => FaultLocks(w, i);
    case Other(op) => SameLocks(w, Next(w, event, arith));
    case Expire(id) => SameLocks(w, Next(w, event, arith));
  }
}
