// The balance cache under any interleaving: a cached balance may be old, but it is never a balance
// that the wallet did not have.
module Staleness {
  import opened Uuid
  import opened Model
  import opened Engine
  import Runs
  import opened Interleaving
  import opened Isolation
  import opened Serial

  // The wallet had this balance after some number of commits.
  ghost predicate WasBalance(init: Db, log: seq<DbOp>, arith: Arith, id: Id, balance: int)
  {
    exists n :: 0 <= n <= |log| && HadBalance(init, log, arith, id, balance, n)
  }

  predicate HadBalance(init: Db, log: seq<DbOp>, arith: Arith, id: Id, balance: int, n: nat)
    requires n <= |log|
  {
    var wallets := Run(init, log[..n], arith).wallets;
    id in wallets && wallets[id].balance == balance
  }

  ghost predicate CacheOnce(init: Db, log: seq<DbOp>, arith: Arith, cache: map<Id, int>)
  {
    forall id | id in cache :: WasBalance(init, log, arith, id, cache[id])
  }

  ghost predicate PendingOnce(init: Db, log: seq<DbOp>, arith: Arith, pending: seq<(Id, int)>)
  {
    forall i | 0 <= i < |pending| :: WasBalance(init, log, arith, pending[i].0, pending[i].1)
  }

  // What a process is about to cache, or has answered, was a balance.
  ghost predicate CarriesOnce(init: Db, log: seq<DbOp>, arith: Arith, p: Proc)
  {
    match p.stage
    case Refreshing(_, pending, _) => PendingOnce(init, log, arith, pending)
    case RowRead(balance) => p.task.Read? ==> WasBalance(init, log, arith, p.task.wallet, balance)
    case Priming(balance) => p.task.Read? ==> WasBalance(init, log, arith, p.task.wallet, balance)
    case Answered(Ok(balance)) => p.task.Read? ==> WasBalance(init, log, arith, p.task.wallet, balance)
    case _ => true
  }

  ghost predicate AllCarry(init: Db, w: World, arith: Arith)
  {
    forall i | 0 <= i < |w.procs| :: CarriesOnce(init, w.log, arith, w.procs[i])
  }

  ghost predicate Remembers(init: Db, w: World, arith: Arith)
  {
    CacheOnce(init, w.log, arith, w.cache) && AllCarry(init, w, arith)
  }

  // ---------- The log grows ----------

  lemma WasLater(init: Db, log: seq<DbOp>, more: seq<DbOp>, arith: Arith, id: Id, balance: int)
    requires WasBalance(init, log, arith, id, balance) && log <= more
    ensures WasBalance(init, more, arith, id, balance)
  {
    var n :| 0 <= n <= |log| && HadBalance(init, log, arith, id, balance, n);
    assert more[..n] == log[..n];
    hide Run;
    assert HadBalance(init, more, arith, id, balance, n);
  }

  lemma IsBalance(init: Db, log: seq<DbOp>, arith: Arith, id: Id)
    requires id in Run(init, log, arith).wallets
    ensures WasBalance(init, log, arith, id, Run(init, log, arith).wallets[id].balance)
  {
    hide Run;
    assert log[..|log|] == log;
    assert HadBalance(init, log, arith, id, Run(init, log, arith).wallets[id].balance, |log|);
  }

  lemma CarriesLater(init: Db, log: seq<DbOp>, more: seq<DbOp>, arith: Arith, p: Proc)
    requires CarriesOnce(init, log, arith, p) && log <= more
    ensures CarriesOnce(init, more, arith, p)
  {
    hide WasBalance;
    match p.stage
    case Refreshing(_, pending, _) =>
      forall i | 0 <= i < |pending| ensures WasBalance(init, more, arith, pending[i].0, pending[i].1) {
        WasLater(init, log, more, arith, pending[i].0, pending[i].1);
      }
    case RowRead(balance) => if p.task.Read? { WasLater(init, log, more, arith, p.task.wallet, balance); }
    case Priming(balance) => if p.task.Read? { WasLater(init, log, more, arith, p.task.wallet, balance); }
    case Answered(Ok(balance)) => if p.task.Read? { WasLater(init, log, more, arith, p.task.wallet, balance); }
    case _ =>
  }

  lemma CacheLater(init: Db, log: seq<DbOp>, more: seq<DbOp>, arith: Arith, cache: map<Id, int>)
    requires CacheOnce(init, log, arith, cache) && log <= more
    ensures CacheOnce(init, more, arith, cache)
  {
    hide WasBalance;
    forall id | id in cache ensures WasBalance(init, more, arith, id, cache[id]) {
      WasLater(init, log, more, arith, id, cache[id]);
    }
  }

  // ---------- One statement ----------

  lemma ReadCarries(init: Db, log: seq<DbOp>, db: Db, arith: Arith, cache: map<Id, int>, p: Proc)
    requires p.task.Read? && db == Run(init, log, arith)
    requires CacheOnce(init, log, arith, cache) && CarriesOnce(init, log, arith, p)
    ensures CarriesOnce(init, log, arith, p.(stage := ReadStage(db, cache, p.task.wallet, p.stage)))
    ensures CacheOnce(init, log, arith, CacheAfter(cache, p))
  {
    hide WasBalance, Run;
    if p.stage.Arriving? && p.task.wallet in db.wallets { IsBalance(init, log, arith, p.task.wallet); }
  }

  lemma StoredBalances(wallets: map<Id, Wallet>, stage: Stage, arith: Arith)
    requires stage.Writing?
    requires var m, rows := stage.m, stage.rows;
             && m.source in rows && m.source in wallets && rows[m.source] == wallets[m.source]
             && m.destination in rows && m.destination in wallets && rows[m.destination] == wallets[m.destination]
    ensures var pending, after := NewBalances(stage, arith), PostWallets(wallets, stage.m, arith);
            forall i | 0 <= i < |pending| :: pending[i].0 in after && after[pending[i].0].balance == pending[i].1
  {
    hide Moved;
  }

  // The balances that a commit goes on to cache are the balances it has just stored.
  lemma CommitCarries(init: Db, log: seq<DbOp>, db: Db, arith: Arith, p: Proc)
    requires p.task.Move? && p.stage.Writing? && InFlight(db, p) && db == Run(init, log, arith)
    requires LegalRun(init, log, arith)
    ensures PendingOnce(init, log + [Money(p.task.call)], arith, NewBalances(p.stage, arith))
  {
    var call, m := p.task.call, p.stage.m;
    CommitIsStep(db, p, arith);
    LegalNow(db, p);
    AdmittedRows(db, p);
    hide InFlight, Legal, Decide, ScriptOf, Apply, LegalRun, Step, WasBalance, NewBalances, PostWallets;
    RunNext(init, log, Money(call), arith);
    hide Run;
    StoredBalances(db.wallets, p.stage, arith);
    PendingStored(init, log + [Money(call)], arith, NewBalances(p.stage, arith));
  }

  lemma PendingStored(init: Db, log: seq<DbOp>, arith: Arith, pending: seq<(Id, int)>)
    requires var wallets := Run(init, log, arith).wallets;
             forall i | 0 <= i < |pending| :: pending[i].0 in wallets && wallets[pending[i].0].balance == pending[i].1
    ensures PendingOnce(init, log, arith, pending)
  {
    hide Run, WasBalance;
    forall i | 0 <= i < |pending| ensures WasBalance(init, log, arith, pending[i].0, pending[i].1) {
      IsBalance(init, log, arith, pending[i].0);
    }
  }

  lemma AdmittedRows(db: Db, p: Proc)
    requires p.task.Move? && p.stage.Writing? && InFlight(db, p)
    ensures var m, rows := p.stage.m, p.stage.rows;
            && m.source in rows && m.source in db.wallets && rows[m.source] == db.wallets[m.source]
            && m.destination in rows && m.destination in db.wallets && rows[m.destination] == db.wallets[m.destination]
            && m.source != m.destination
  {
    hide GetTransaction, Vet, Legal;
  }

  lemma QuietCarries(init: Db, log: seq<DbOp>, db: Db, arith: Arith, cache: map<Id, int>, p: Proc)
    requires p.task.Move? && !Commits(p, arith) && StageFits(p)
    requires CacheOnce(init, log, arith, cache) && CarriesOnce(init, log, arith, p)
    ensures CarriesOnce(init, log, arith, p.(stage := MoveStage(db, p.task.call, p.stage, |log|, arith)))
    ensures CacheOnce(init, log, arith, CacheAfter(cache, p))
  {
    hide WasBalance, Run, GetTransaction, Vet, Admit, Script, LockIds;
  }

  lemma FaultCarries(init: Db, log: seq<DbOp>, arith: Arith, p: Proc)
    requires StageFits(p) && !Done(p) && CarriesOnce(init, log, arith, p)
    ensures CarriesOnce(init, log, arith, p.(stage := FaultStage(p)))
  {
    hide WasBalance;
  }

  // ---------- Runs ----------

  lemma SetCarries(init: Db, w: World, i: nat, after: World, arith: Arith)
    requires AllCarry(init, w, arith) && i < |w.procs| && w.log <= after.log
    requires |after.procs| == |w.procs| && forall j | 0 <= j < |w.procs| && j != i :: after.procs[j] == w.procs[j]
    requires CarriesOnce(init, after.log, arith, after.procs[i])
    ensures AllCarry(init, after, arith)
  {
    hide CarriesOnce;
    forall j | 0 <= j < |after.procs| ensures CarriesOnce(init, after.log, arith, after.procs[j]) {
      if j != i { CarriesLater(init, w.log, after.log, arith, w.procs[j]); }
    }
  }

  lemma AdvanceRemembers(init: Db, w: World, i: nat, arith: Arith)
    requires Ordered(init, w, arith) && Remembers(init, w, arith) && CanAdvance(w, i)
    ensures Remembers(init, DoAdvance(w, i, arith), arith)
  {
    var p, after := w.procs[i], DoAdvance(w, i, arith);
    OrderedParts(init, w, i, arith);
    hide Ordered, CarriesOnce, CacheOnce, Run, LegalRun, InFlight, LocksAfter, ScriptOf, Apply, StageFits,
        MoveStage, ReadStage;
    if p.task.Read? {
      ReadCarries(init, w.log, w.db, arith, w.cache, p);
    } else if Commits(p, arith) {
      CommitCarries(init, w.log, w.db, arith, p);
      CommitStage(w.db, p, |w.log|, arith);
      CommitStarts(init, after.log, arith, after.procs[i]);
      CacheLater(init, w.log, after.log, arith, w.cache);
    } else {
      QuietCarries(init, w.log, w.db, arith, w.cache, p);
    }
    hide Commits, CanAdvance, NextStage;
    SetCarries(init, w, i, after, arith);
  }

  lemma CommitStarts(init: Db, log: seq<DbOp>, arith: Arith, p: Proc)
    requires p.stage.Refreshing? && PendingOnce(init, log, arith, p.stage.pending)
    ensures CarriesOnce(init, log, arith, p)
  {
  }

  lemma NextRemembers(init: Db, w: World, event: Event, arith: Arith)
    requires Ordered(init, w, arith) && Remembers(init, w, arith) && Enabled(w, event)
    ensures Remembers(init, Next(w, event, arith), arith)
  {
    hide Ordered;
    match event
    case Advance(i) => hide Remembers, DoAdvance, CanAdvance; AdvanceRemembers(init, w, i, arith);
    case Fault(i) =>
      hide CacheOnce, CarriesOnce, FaultStage, StageFits;
      FaultCarries(init, w.log, arith, w.procs[i]);
      SetCarries(init, w, i, DoFault(w, i), arith);
    case Other(op) =>
      hide CacheOnce, CarriesOnce, Step;
      var after := Next(w, event, arith);
      CacheLater(init, w.log, after.log, arith, w.cache);
      forall j | 0 <= j < |w.procs| ensures CarriesOnce(init, after.log, arith, w.procs[j]) {
        CarriesLater(init, w.log, after.log, arith, w.procs[j]);
      }
    case Expire(id) => hide CarriesOnce, WasBalance;
  }

  lemma {:induction false} RunRemembers(init: Db, w: World, events: seq<Event>, after: World, arith: Arith)
    requires Ordered(init, w, arith) && Remembers(init, w, arith) && Runs.Leads(Moving(arith), w, events, after)
    ensures Remembers(init, after, arith)
    decreases |events|
  {
    hide Ordered, Remembers, Enabled, Next, Runs.Leads;
    if events == [] {
      Runs.Nowhere(Moving(arith), w, events, after);
    } else {
      var mid := Runs.GoBack(Moving(arith), w, events, after);
      RunOrdered(init, w, events[..|events| - 1], mid, arith);
      RunRemembers(init, w, events[..|events| - 1], mid, arith);
      NextRemembers(init, mid, events[|events| - 1], arith);
    }
  }

  predicate AnsweredOk(p: Proc)
  {
    p.task.Read? && p.stage.Answered? && p.stage.answer.Ok?
  }

  // With failed cache writes, expiry, and calls and balance reads interleaved in any way, every
  // cached balance and every balance answered was the wallet's balance after some number of commits.
  lemma NoInventedBalance(init: Db, tasks: seq<Task>, events: seq<Event>, w: World, arith: Arith)
    requires Reaches(init, tasks, events, w, arith)
    ensures forall id | id in w.cache :: WasBalance(init, w.log, arith, id, w.cache[id])
    ensures forall i | 0 <= i < |w.procs| && AnsweredOk(w.procs[i]) ::
              WasBalance(init, w.log, arith, w.procs[i].task.wallet, w.procs[i].stage.answer.value)
  {
    BeginOrdered(init, tasks, arith);
    assert Remembers(init, Begin(init, tasks), arith);
    hide Ordered, WasBalance, Runs.Leads;
    RunRemembers(init, Begin(init, tasks), events, w, arith);
    forall i | 0 <= i < |w.procs| && AnsweredOk(w.procs[i])
      ensures WasBalance(init, w.log, arith, w.procs[i].task.wallet, w.procs[i].stage.answer.value)
    {
      assert CarriesOnce(init, w.log, arith, w.procs[i]);
    }
  }
}
