// When the balance cache agrees with the database under interleaving, and when it does not.
module Coherence {
  import opened Wrappers
  import opened Uuid
  import opened Model
  import opened Engine
  import opened Books
  import opened Interleaving
  import opened Locking
  import opened Isolation
  import opened Serial
  import opened Staleness
  import opened Progress
  import opened Status
  import Replies
  import Server
  import Runs

  // ---------- One cache write ----------

  predicate AgreesAt(w: World, id: Id)
  {
    id in w.cache ==> id in w.db.wallets && w.cache[id] == w.db.wallets[id].balance
  }

  // What the next statement of a process puts into the cache.
  function CacheWrite(p: Proc): Option<(Id, int)>
  {
    match p.stage
    case Refreshing(_, pending, _) => if pending != [] then Some(pending[0]) else None
    case Priming(balance) => if p.task.Read? then Some((p.task.wallet, balance)) else None
    case _ => None
  }

  // A cache write of a process keeps the cache in agreement if and only if the balance it carries is
  // still the stored one; it touches no other entry.
  lemma CacheWriteAgrees(w: World, i: nat, id: Id, balance: int, arith: Arith)
    requires CanAdvance(w, i) && CacheWrite(w.procs[i]) == Some((id, balance)) && id in w.db.wallets
    ensures AgreesAt(DoAdvance(w, i, arith), id) <==> w.db.wallets[id].balance == balance
    ensures forall other | other != id :: AgreesAt(DoAdvance(w, i, arith), other) <==> AgreesAt(w, other)
  {
    hide NextStage, LocksAfter, SpansAfter, ScriptOf, Apply, Wanted;
  }

  // ---------- Runs that keep the cache coherent ----------

  // The balances that a process has read or stored and may still put into the cache.
  function Carried(p: Proc): seq<(Id, int)>
  {
    match p.stage
    case Refreshing(_, pending, _) => pending
    case RowRead(balance) => if p.task.Read? then [(p.task.wallet, balance)] else []
    case Priming(balance) => if p.task.Read? then [(p.task.wallet, balance)] else []
    case _ => []
  }

  predicate Names(carried: seq<(Id, int)>, id: Id)
  {
    exists k | 0 <= k < |carried| :: carried[k].0 == id
  }

  predicate AllStored(wallets: map<Id, Wallet>, carried: seq<(Id, int)>)
  {
    forall k | 0 <= k < |carried| :: carried[k].0 in wallets && wallets[carried[k].0].balance == carried[k].1
  }

  predicate WillRefresh(p: Proc, id: Id)
  {
    p.stage.Refreshing? && Names(p.stage.pending, id)
  }

  predicate Awaited(procs: seq<Proc>, id: Id)
  {
    exists i | 0 <= i < |procs| :: WillRefresh(procs[i], id)
  }

  // A posting commits only while no other process carries a balance of its wallets, and a refresh
  // fails only for an entry that is absent or right, or that another refresh is due to set.
  predicate Calm(w: World, event: Event, arith: Arith)
    requires Enabled(w, event)
  {
    match event
    case Advance(i) =>
      Commits(w.procs[i], arith) ==>
        var m := w.procs[i].stage.m;
        forall j | 0 <= j < |w.procs| && j != i ::
          !Names(Carried(w.procs[j]), m.source) && !Names(Carried(w.procs[j]), m.destination)
    case Fault(i) =>
      w.procs[i].stage.Refreshing? && w.procs[i].stage.pending != [] ==>
        var id := w.procs[i].stage.pending[0].0;
        AgreesAt(w, id) || Awaited(DoFault(w, i).procs, id)
    case _ => true
  }

  function MovingCalmly(arith: Arith): (World, Event, World) -> bool
  {
    (w, event, after) => Enabled(w, event) && Calm(w, event, arith) && after == Next(w, event, arith)
  }

  // Every balance on its way into the cache is the stored one, and every entry that is not is about to
  // be refreshed.
  ghost predicate Coherent(w: World)
  {
    && (forall i {:trigger Carried(w.procs[i])} | 0 <= i < |w.procs| :: AllStored(w.db.wallets, Carried(w.procs[i])))
    && (forall id | id in w.cache :: AgreesAt(w, id) || (id in w.db.wallets && Awaited(w.procs, id)))
  }

  // ---------- Events that leave the balances alone ----------

  // After an event of one process an entry agrees, or is as it was and as awaited as it was.
  predicate EntryKept(w: World, after: World, i: nat, id: Id)
    requires i < |w.procs| && i < |after.procs| && id in after.cache
  {
    AgreesAt(after, id)
    || (id in w.cache && after.cache[id] == w.cache[id]
        && (WillRefresh(w.procs[i], id) ==> WillRefresh(after.procs[i], id)))
    || (id in w.db.wallets && Awaited(after.procs, id))
  }

  lemma SetCoherent(w: World, i: nat, after: World)
    requires Coherent(w) && i < |w.procs| && after.db == w.db
    requires |after.procs| == |w.procs| && forall j | 0 <= j < |w.procs| && j != i :: after.procs[j] == w.procs[j]
    requires AllStored(w.db.wallets, Carried(after.procs[i]))
    requires forall id | id in after.cache :: EntryKept(w, after, i, id)
    ensures Coherent(after)
  {
    hide Carried, WillRefresh, AllStored;
    forall id | id in after.cache ensures AgreesAt(after, id) || (id in w.db.wallets && Awaited(after.procs, id)) {
      assert EntryKept(w, after, i, id);
      if Awaited(w.procs, id) {
        var j :| 0 <= j < |w.procs| && WillRefresh(w.procs[j], id);
        if j != i || WillRefresh(after.procs[i], id) { assert WillRefresh(after.procs[j], id); }
      }
    }
  }

  lemma CarriedBefore(w: World, i: nat)
    requires Coherent(w) && i < |w.procs|
    ensures AllStored(w.db.wallets, Carried(w.procs[i]))
  {
    hide Carried, AllStored;
  }

  lemma MoveCarries(w: World, i: nat, arith: Arith)
    requires CanAdvance(w, i) && !Commits(w.procs[i], arith) && w.procs[i].task.Move?
    requires AllStored(w.db.wallets, Carried(w.procs[i]))
    ensures AllStored(w.db.wallets, Carried(w.procs[i].(stage := NextStage(w, w.procs[i], arith))))
  {
    hide GetTransaction, Vet, Admit, Script, Lookup, LockIds, Wanted;
  }

  lemma ReadCarriesStored(w: World, i: nat, arith: Arith)
    requires CanAdvance(w, i) && w.procs[i].task.Read?
    requires AllStored(w.db.wallets, Carried(w.procs[i]))
    ensures AllStored(w.db.wallets, Carried(w.procs[i].(stage := NextStage(w, w.procs[i], arith))))
  {
  }

  lemma NamesRest(pending: seq<(Id, int)>, id: Id)
    requires Names(pending, id) && pending[0].0 != id
    ensures Names(pending[1..], id)
  {
    var k :| 0 <= k < |pending| && pending[k].0 == id;
    assert pending[1..][k - 1].0 == id;
  }

  // The one entry that a statement writes agrees, and what else the process will refresh it still will.
  lemma QuietEntry(w: World, i: nat, arith: Arith, id: Id)
    requires CanAdvance(w, i) && !Commits(w.procs[i], arith) && id in DoAdvance(w, i, arith).cache
    requires AllStored(w.db.wallets, Carried(w.procs[i]))
    ensures EntryKept(w, DoAdvance(w, i, arith), i, id)
  {
    hide GetTransaction, Vet, Admit, Script, Lookup, LockIds, Wanted, LocksAfter, SpansAfter, Names;
    var p := w.procs[i];
    if p.stage.Refreshing? && p.stage.pending != [] {
      assert Carried(p)[0] == p.stage.pending[0];
      if WillRefresh(p, id) && p.stage.pending[0].0 != id { NamesRest(p.stage.pending, id); }
    } else if p.stage.Refreshing? {
      assert !Names([], id) by { NamesNothing(id); }
    } else if p.task.Read? && p.stage.Priming? {
      assert Carried(p)[0] == (p.task.wallet, p.stage.balance);
    }
  }

  lemma NamesNothing(id: Id)
    ensures !Names([], id)
  {
  }

  lemma QuietCoherent(w: World, i: nat, arith: Arith)
    requires Coherent(w) && CanAdvance(w, i) && !Commits(w.procs[i], arith)
    ensures Coherent(DoAdvance(w, i, arith))
  {
    hide Coherent, AllStored, Carried, Commits, NextStage, LocksAfter, SpansAfter, CacheAfter, EntryKept, StageFits,
        Wanted, Done;
    CarriedBefore(w, i);
    if w.procs[i].task.Move? { MoveCarries(w, i, arith); } else { ReadCarriesStored(w, i, arith); }
    var after := DoAdvance(w, i, arith);
    forall id | id in after.cache ensures EntryKept(w, after, i, id) {
      QuietEntry(w, i, arith, id);
    }
    SetCoherent(w, i, after);
  }

  lemma FaultCarriesStored(w: World, i: nat)
    requires CanFail(w, i) && AllStored(w.db.wallets, Carried(w.procs[i]))
    ensures AllStored(w.db.wallets, Carried(w.procs[i].(stage := FaultStage(w.procs[i]))))
  {
  }

  lemma FaultEntry(w: World, i: nat, arith: Arith, id: Id)
    requires CanFail(w, i) && Calm(w, Fault(i), arith) && id in w.cache
    requires AllStored(w.db.wallets, Carried(w.procs[i]))
    ensures EntryKept(w, DoFault(w, i), i, id)
  {
    hide Names, SpansAfter, Awaited;
    var p := w.procs[i];
    if p.stage.Refreshing? && p.stage.pending != [] {
      assert Carried(p)[0] == p.stage.pending[0];
      if WillRefresh(p, id) && p.stage.pending[0].0 != id { NamesRest(p.stage.pending, id); }
    } else if p.stage.Refreshing? {
      NamesNothing(id);
    }
  }

  lemma FaultCoherent(w: World, i: nat, arith: Arith)
    requires Coherent(w) && CanFail(w, i) && Calm(w, Fault(i), arith)
    ensures Coherent(DoFault(w, i))
  {
    hide Coherent, AllStored, Carried, FaultStage, SpansAfter, EntryKept, Calm, StageFits, Done;
    CarriedBefore(w, i);
    FaultCarriesStored(w, i);
    var after := DoFault(w, i);
    forall id | id in after.cache ensures EntryKept(w, after, i, id) {
      FaultEntry(w, i, arith, id);
    }
    SetCoherent(w, i, after);
  }

  // ---------- Events that change the tables ----------

  lemma WriterKeepsBalances(db: Db, op: DbOp, arith: Arith)
    requires !op.Money?
    ensures var wallets := Step(db, op, arith).wallets;
            forall id | id in db.wallets :: id in wallets && wallets[id].balance == db.wallets[id].balance
  {
  }

  lemma WriterCoherent(w: World, after: World, op: DbOp, arith: Arith)
    requires Coherent(w) && !op.Money? && after.db == Step(w.db, op, arith)
    requires after.procs == w.procs && after.cache == w.cache
    ensures Coherent(after)
  {
    hide Step, Carried, WillRefresh;
    WriterKeepsBalances(w.db, op, arith);
    forall i | 0 <= i < |w.procs| ensures AllStored(after.db.wallets, Carried(after.procs[i])) {
      CarriedBefore(w, i);
    }
  }

  // A posting leaves the balances of other wallets, and of what is carried of them.
  lemma CarriedStays(wallets: map<Id, Wallet>, m: Movement, arith: Arith, carried: seq<(Id, int)>)
    requires m.source in wallets && m.destination in wallets && AllStored(wallets, carried)
    requires !Names(carried, m.source) && !Names(carried, m.destination)
    ensures AllStored(PostWallets(wallets, m, arith), carried)
  {
    hide Moved;
    forall k | 0 <= k < |carried|
      ensures carried[k].0 in wallets && PostWallets(wallets, m, arith)[carried[k].0] == wallets[carried[k].0]
    {
      assert carried[k].0 != m.source && carried[k].0 != m.destination;
    }
  }

  lemma BalancesNamed(stage: Stage, arith: Arith)
    requires stage.Writing? && stage.m.source in stage.rows && stage.m.destination in stage.rows
    ensures Names(NewBalances(stage, arith), stage.m.source) && Names(NewBalances(stage, arith), stage.m.destination)
  {
    hide PostWallets;
    var pending := NewBalances(stage, arith);
    assert {pending[0].0, pending[1].0} == {stage.m.source, stage.m.destination};
  }

  lemma CommitEntry(w: World, after: World, i: nat, m: Movement, arith: Arith, id: Id)
    requires Coherent(w) && i < |w.procs| && w.procs[i].stage.Writing? && id in w.cache && after.cache == w.cache
    requires m.source in w.db.wallets && m.destination in w.db.wallets
    requires after.db.wallets == PostWallets(w.db.wallets, m, arith)
    requires |after.procs| == |w.procs| && forall j | 0 <= j < |w.procs| && j != i :: after.procs[j] == w.procs[j]
    requires WillRefresh(after.procs[i], m.source) && WillRefresh(after.procs[i], m.destination)
    ensures AgreesAt(after, id) || (id in after.db.wallets && Awaited(after.procs, id))
  {
    hide Names, Carried, AllStored, Moved;
    if id == m.source || id == m.destination {
      assert WillRefresh(after.procs[i], id);
    } else if !AgreesAt(w, id) {
      var j :| 0 <= j < |w.procs| && WillRefresh(w.procs[j], id);
      assert WillRefresh(after.procs[j], id);
    }
  }

  lemma CommitCoherent(w: World, i: nat, arith: Arith)
    requires Coherent(w) && CanAdvance(w, i) && Commits(w.procs[i], arith) && InFlight(w.db, w.procs[i])
    requires Calm(w, Advance(i), arith)
    ensures Coherent(DoAdvance(w, i, arith))
  {
    var p, after := w.procs[i], DoAdvance(w, i, arith);
    var m := p.stage.m;
    CommitShape(w, i, arith);
    CommitStage(w.db, p, |w.log|, arith);
    CommitIsStep(w.db, p, arith);
    AdmittedRows(w.db, p);
    assert after.cache == w.cache;
    hide DoAdvance, CanAdvance, Commits, Step, Decide, ScriptOf, Apply, InFlight, MoveStage, NewTransaction;
    assert after.db.wallets == PostWallets(w.db.wallets, m, arith);
    StoredBalances(w.db.wallets, p.stage, arith);
    BalancesNamed(p.stage, arith);
    hide PostWallets, NewBalances, Names;
    forall j | 0 <= j < |w.procs| ensures AllStored(after.db.wallets, Carried(after.procs[j])) {
      CarriedBefore(w, j);
      if j != i { CarriedStays(w.db.wallets, m, arith, Carried(w.procs[j])); }
    }
    forall id | id in after.cache ensures AgreesAt(after, id) || (id in after.db.wallets && Awaited(after.procs, id)) {
      CommitEntry(w, after, i, m, arith, id);
    }
  }

  lemma NextCoherent(init: Db, w: World, event: Event, arith: Arith)
    requires Ordered(init, w, arith) && Coherent(w) && Enabled(w, event) && Calm(w, event, arith)
    ensures Coherent(Next(w, event, arith))
  {
    match event
    case Advance(i) =>
      OrderedParts(init, w, i, arith);
      hide Ordered, Coherent, DoAdvance, CanAdvance, Calm;
      if Commits(w.procs[i], arith) { CommitCoherent(w, i, arith); } else { QuietCoherent(w, i, arith); }
    case Fault(i) => hide Ordered, Coherent, DoFault, CanFail, Calm; FaultCoherent(w, i, arith);
    case Other(op) => hide Ordered, Coherent, Step; WriterCoherent(w, Next(w, event, arith), op, arith);
    case Expire(id) => hide Ordered, Carried, WillRefresh;
  }

  // ---------- Calm is exactly what it takes ----------

  // The posting that a commit makes changes both balances, as every posting does that moves money.
  ghost predicate Changes(w: World, i: nat, arith: Arith)
    requires CanAdvance(w, i)
  {
    Commits(w.procs[i], arith) ==>
      var m, after := w.procs[i].stage.m, DoAdvance(w, i, arith).db.wallets;
      forall id | id == m.source || id == m.destination ::
        id in w.db.wallets && id in after && after[id].balance != w.db.wallets[id].balance
  }

  lemma PostingChanges(w: World, i: nat)
    requires Sound(w.db) && CanAdvance(w, i) && InFlight(w.db, w.procs[i])
    ensures Changes(w, i, Unbounded)
  {
    hide Sound;
    var p, after := w.procs[i], DoAdvance(w, i, Unbounded);
    if Commits(p, Unbounded) {
      CommitShape(w, i, Unbounded);
      CommitIsStep(w.db, p, Unbounded);
      LegalNow(w.db, p);
      Server.AmountPosted(w.db, p.task.call);
      hide DoAdvance, CanAdvance, Commits, Decide, InFlight, Step, Legal, ScriptOf, Apply;
      assert after.db.wallets == PostWallets(w.db.wallets, p.stage.m, Unbounded);
    }
  }

  // A commit while another process carries a balance of its wallet leaves that process with an old one.
  lemma CommitNeedsCalm(w: World, i: nat, arith: Arith)
    requires Coherent(w) && CanAdvance(w, i) && Commits(w.procs[i], arith) && Changes(w, i, arith)
    requires Coherent(DoAdvance(w, i, arith))
    ensures Calm(w, Advance(i), arith)
  {
    var m, after := w.procs[i].stage.m, DoAdvance(w, i, arith);
    assert after.procs == w.procs[i := after.procs[i]];
    hide DoAdvance, CanAdvance, Commits, Carried, Awaited;
    forall j, id | 0 <= j < |w.procs| && j != i && (id == m.source || id == m.destination)
      ensures !Names(Carried(w.procs[j]), id)
    {
      CarriedBefore(w, j);
      CarriedBefore(after, j);
    }
  }

  // A failed refresh that is not calm leaves its entry wrong with nobody to set it.
  lemma FaultNeedsCalm(w: World, i: nat, arith: Arith)
    requires CanFail(w, i) && Coherent(DoFault(w, i))
    ensures Calm(w, Fault(i), arith)
  {
    hide FaultStage, SpansAfter, Carried, Awaited;
    var p := w.procs[i];
    if p.stage.Refreshing? && p.stage.pending != [] {
      var id := p.stage.pending[0].0;
      assert id in w.cache ==> AgreesAt(DoFault(w, i), id) || Awaited(DoFault(w, i).procs, id);
    }
  }

  // An event keeps the cache coherent if and only if it is calm.
  lemma CoherentIffCalm(init: Db, w: World, event: Event, arith: Arith)
    requires Ordered(init, w, arith) && Coherent(w) && Enabled(w, event)
    requires event.Advance? ==> Changes(w, event.proc, arith)
    ensures Coherent(Next(w, event, arith)) <==> Calm(w, event, arith)
  {
    hide Ordered, Coherent, Changes, DoAdvance, DoFault, CanAdvance, CanFail;
    if Calm(w, event, arith) {
      NextCoherent(init, w, event, arith);
    } else if Coherent(Next(w, event, arith)) {
      match event
      case Advance(i) => CommitNeedsCalm(w, i, arith);
      case Fault(i) => FaultNeedsCalm(w, i, arith);
      case _ =>
    }
  }

  // ---------- Calm runs ----------

  lemma BeginCoherent(init: Db, tasks: seq<Task>)
    ensures Coherent(Begin(init, tasks))
  {
  }

  lemma {:induction false} RunCoherent(init: Db, w: World, events: seq<Event>, after: World, arith: Arith)
    requires Ordered(init, w, arith) && Coherent(w) && Runs.Leads(MovingCalmly(arith), w, events, after)
    ensures Ordered(init, after, arith) && Coherent(after)
    decreases |events|
  {
    hide Ordered, Coherent, Enabled, Calm, Next, Runs.Leads;
    if events == [] {
      Runs.Nowhere(MovingCalmly(arith), w, events, after);
    } else {
      var mid := Runs.GoBack(MovingCalmly(arith), w, events, after);
      RunCoherent(init, w, events[..|events| - 1], mid, arith);
      NextOrdered(init, mid, events[|events| - 1], arith);
      NextCoherent(init, mid, events[|events| - 1], arith);
    }
  }

  // In calm runs every entry of the cache is the stored balance, unless its refresh is about to be
  // made; so whenever no call is refreshing, the whole cache agrees.
  lemma CalmRunsAgree(init: Db, tasks: seq<Task>, events: seq<Event>, w: World, arith: Arith)
    requires GoodTasks(init, tasks) && Runs.Leads(MovingCalmly(arith), Begin(init, tasks), events, w)
    ensures forall id | id in w.cache && !Awaited(w.procs, id) :: AgreesAt(w, id)
    ensures (forall i | 0 <= i < |w.procs| :: !w.procs[i].stage.Refreshing?)
        ==> forall id | id in w.cache :: AgreesAt(w, id)
  {
    BeginOrdered(init, tasks, arith);
    BeginCoherent(init, tasks);
    hide Ordered, Runs.Leads, GoodTasks;
    RunCoherent(init, Begin(init, tasks), events, w, arith);
  }

  // ... and a balance that is answered is the stored one, unless a refresh of that wallet is awaited.
  lemma CalmReadsAreTrue(w: World, i: nat, arith: Arith)
    requires Coherent(w) && CanAdvance(w, i) && w.procs[i].task.Read?
    requires var next := DoAdvance(w, i, arith).procs[i].stage; next.Answered? && next.answer.Ok?
    requires !Awaited(w.procs, w.procs[i].task.wallet)
    ensures var id := w.procs[i].task.wallet;
            id in w.db.wallets && DoAdvance(w, i, arith).procs[i].stage.answer.value == w.db.wallets[id].balance
  {
    hide Awaited, LocksAfter, SpansAfter, CacheAfter;
    var p := w.procs[i];
    CarriedBefore(w, i);
    if !p.stage.Arriving? { assert Carried(p)[0].0 == p.task.wallet; }
  }

  // ---------- A posting that runs alone ----------

  predicate MineOnly(w: World, i: nat)
  {
    forall r | r in w.locks :: w.locks[r] == i
  }

  lemma CanAdvanceAlone(w: World, i: nat)
    requires LocksOk(w) && i < |w.procs| && StageFits(w.procs[i]) && !Done(w.procs[i]) && Climbs(w.procs[i])
    requires MineOnly(w, i)
    ensures CanAdvance(w, i)
  {
    hide Holdings, Climbs, Done, StageFits, Rank;
    var wanted := Wanted(w.db, w.procs[i]);
    if wanted.Some? && wanted.value in w.locks { WantsLater(w.db, w.procs[i], wanted.value); }
  }

  // A call on its way to a posting, with what it has read.
  predicate OnCourse(db: Db, call: Call, m: Movement, stage: Stage)
  {
    Decide(db, call) == Posts(m)
    && match stage
       case Arriving => true
       case Inserting => true
       case LockingRow => true
       case LockingWallets(_, m', ids, rows) =>
         m' == m && forall id | id in LockIds(m) ::
           id in ids || (id in rows && id in db.wallets && rows[id] == db.wallets[id])
       case Writing(_, m', _, _) => m' == m
       case _ => false
  }

  lemma StaysOnCourse(db: Db, p: Proc, m: Movement, at: nat, arith: Arith)
    requires p.task.Move? && OnCourse(db, p.task.call, m, p.stage) && !Commits(p, arith)
    ensures OnCourse(db, p.task.call, m, MoveStage(db, p.task.call, p.stage, at, arith))
  {
    hide GetTransaction, Vet, Script;
    if p.stage.LockingWallets? && p.stage.ids == [] {
      Replies.AdmitSame(m, p.stage.rows, db.wallets);
      hide Admit;
    } else {
      hide Admit;
    }
  }

  lemma QuietShape(w: World, i: nat, arith: Arith)
    requires CanAdvance(w, i) && !Commits(w.procs[i], arith) && w.procs[i].task.Move?
    ensures var p, after := w.procs[i], DoAdvance(w, i, arith);
            && after.db == w.db && after.log == w.log
            && after.procs == w.procs[i := p.(stage := MoveStage(w.db, p.task.call, p.stage, |w.log|, arith))]
  {
    hide MoveStage, LocksAfter, SpansAfter, CacheAfter, StageFits, Wanted, Commits, ScriptOf;
  }

  lemma AdvanceMine(w: World, i: nat, arith: Arith)
    requires CanAdvance(w, i) && MineOnly(w, i)
    ensures MineOnly(DoAdvance(w, i, arith), i)
  {
    hide NextStage, CacheAfter, SpansAfter, StageFits, Wanted, Commits, ScriptOf, Apply;
  }

  predicate Only(events: seq<Event>, i: nat)
  {
    forall k | 0 <= k < |events| :: events[k] == Advance(i)
  }

  lemma LeadsByOne(w: World, event: Event, arith: Arith)
    requires Enabled(w, event)
    ensures Runs.Leads(Moving(arith), w, [event], Next(w, event, arith))
  {
    hide Enabled, Next, Runs.Leads;
    Runs.Stay(Moving(arith), w);
    Runs.GoOn(Moving(arith), w, [], w, event, Next(w, event, arith));
    assert [] + [event] == [event];
  }

  // One statement of a call that is on course and alone.
  lemma StepOnCourse(init: Db, w: World, i: nat, m: Movement, arith: Arith) returns (after: World)
    requires Ordered(init, w, arith) && AllClimb(w) && MineOnly(w, i) && i < |w.procs| && w.procs[i].task.Move?
    requires OnCourse(w.db, w.procs[i].task.call, m, w.procs[i].stage)
    ensures Runs.Leads(Moving(arith), w, [Advance(i)], after)
    ensures Ordered(init, after, arith) && AllClimb(after) && MineOnly(after, i)
    ensures TotalWeight(after.procs) < TotalWeight(w.procs)
    ensures var p := w.procs[i];
            if Commits(p, arith)
            then after.db == Step(w.db, Money(p.task.call), arith) && |after.procs| == |w.procs|
                 && after.procs == w.procs[i := after.procs[i]]
                 && after.procs[i].task == p.task && after.procs[i].stage.Refreshing?
            else after.db == w.db && |after.procs| == |w.procs| && after.procs == w.procs[i := after.procs[i]]
                 && after.procs[i].task == p.task && OnCourse(w.db, p.task.call, m, after.procs[i].stage)
  {
    hide LocksOk, Climbs, Holdings, InFlight, Run, LegalRun, Committer, IdsApart, OnCourse, Commits, MineOnly,
        StageFits;
    var p := w.procs[i];
    assert StageFits(p) && Climbs(p);
    CourseNotDone(w.db, p, m);
    CanAdvanceAlone(w, i);
    hide Ordered, AllClimb, CanAdvance, TotalWeight;
    NextOrdered(init, w, Advance(i), arith);
    NextLightens(w, Advance(i), arith);
    AdvanceMine(w, i, arith);
    LeadsByOne(w, Advance(i), arith);
    after := Next(w, Advance(i), arith);
    if Commits(p, arith) {
      InFlightNow(init, w, i, arith);
      CommitShape(w, i, arith);
      CommitStage(w.db, p, |w.log|, arith);
    } else {
      QuietShape(w, i, arith);
      StaysOnCourse(w.db, p, m, |w.log|, arith);
    }
  }

  lemma InFlightNow(init: Db, w: World, i: nat, arith: Arith)
    requires Ordered(init, w, arith) && i < |w.procs|
    ensures InFlight(w.db, w.procs[i])
  {
    hide InFlight;
    OrderedParts(init, w, i, arith);
  }

  lemma CourseNotDone(db: Db, p: Proc, m: Movement)
    requires p.task.Move? && OnCourse(db, p.task.call, m, p.stage)
    ensures !Done(p)
  {
    hide Decide;
  }

  // It gets to its commit by itself, with the posting the serial engine makes.
  lemma {:induction false} CommitsAlone(init: Db, w: World, i: nat, m: Movement, arith: Arith)
      returns (events: seq<Event>, after: World)
    requires Ordered(init, w, arith) && AllClimb(w) && MineOnly(w, i) && i < |w.procs| && w.procs[i].task.Move?
    requires OnCourse(w.db, w.procs[i].task.call, m, w.procs[i].stage)
    ensures Only(events, i) && Runs.Leads(Moving(arith), w, events, after)
    ensures Ordered(init, after, arith) && AllClimb(after) && MineOnly(after, i)
    ensures after.db == Step(w.db, Money(w.procs[i].task.call), arith)
    ensures |after.procs| == |w.procs| && after.procs == w.procs[i := after.procs[i]]
    ensures after.procs[i].task == w.procs[i].task && after.procs[i].stage.Refreshing?
    decreases TotalWeight(w.procs)
  {
    hide Ordered, AllClimb, MineOnly, OnCourse, Commits, TotalWeight, Step, Runs.Leads;
    after := StepOnCourse(init, w, i, m, arith);
    events := [Advance(i)];
    if !Commits(w.procs[i], arith) {
      var rest;
      var mid := after;
      rest, after := CommitsAlone(init, mid, i, m, arith);
      Runs.Join(Moving(arith), w, [Advance(i)], mid, rest, after);
      events := [Advance(i)] + rest;
    }
  }

  // ... and then tells the cache and answers.
  lemma {:induction false} AnswersAlone(init: Db, w: World, i: nat, arith: Arith)
      returns (events: seq<Event>, after: World)
    requires Ordered(init, w, arith) && AllClimb(w) && MineOnly(w, i) && i < |w.procs| && w.procs[i].task.Move?
    requires w.procs[i].stage.Refreshing?
    ensures Only(events, i) && Runs.Leads(Moving(arith), w, events, after)
    ensures Ordered(init, after, arith) && AllClimb(after) && after.db == w.db
    ensures |after.procs| == |w.procs| && after.procs == w.procs[i := after.procs[i]]
    ensures after.procs[i].task == w.procs[i].task && after.procs[i].stage.Finished?
    decreases TotalWeight(w.procs)
  {
    hide Ordered, MineOnly, TotalWeight, Runs.Leads, Holdings, LocksOk;
    OrderedFits(init, w, arith);
    CanAdvanceAlone(w, i);
    hide AllClimb, CanAdvance;
    NextOrdered(init, w, Advance(i), arith);
    NextLightens(w, Advance(i), arith);
    AdvanceMine(w, i, arith);
    LeadsByOne(w, Advance(i), arith);
    QuietShape(w, i, arith);
    after := Next(w, Advance(i), arith);
    events := [Advance(i)];
    if w.procs[i].stage.pending != [] {
      var rest;
      var mid := after;
      rest, after := AnswersAlone(init, mid, i, arith);
      Runs.Join(Moving(arith), w, [Advance(i)], mid, rest, after);
      events := [Advance(i)] + rest;
    }
  }

  lemma OrderedFits(init: Db, w: World, arith: Arith)
    requires Ordered(init, w, arith)
    ensures LocksOk(w) && AllFit(w.procs)
  {
    hide LocksOk, AllFit, TasksApart, AllInFlight, AllCommitted, FollowsLog;
  }

  // ---------- A run that leaves an old balance in the cache ----------

  // A read, a posting that touches the wallet it reads, and another read of it.
  function ReadPostRead(id: Id, call: Call): seq<Task>
  {
    [Read(id), Move(call), Read(id)]
  }

  // The first read has read the row and is about to prime the cache.
  lemma FirstReads(init: Db, id: Id, call: Call, arith: Arith) returns (w: World)
    requires id in init.wallets && Legal(init, Money(call))
    ensures Reaches(init, ReadPostRead(id, call), [Advance(0), Advance(0)], w, arith)
    ensures w.db == init && w.locks == map[] && w.cache == map[]
    ensures w.procs == [Proc(Read(id), Priming(init.wallets[id].balance)), Proc(Move(call), Arriving),
        Proc(Read(id), Arriving)]
  {
    hide Legal, Runs.Leads, SpansAfter;
    var start := Begin(init, ReadPostRead(id, call));
    var mid := Next(start, Advance(0), arith);
    assert Enabled(start, Advance(0)) && Enabled(mid, Advance(0));
    LeadsByOne(start, Advance(0), arith);
    LeadsByOne(mid, Advance(0), arith);
    w := Next(mid, Advance(0), arith);
    Runs.Join(Moving(arith), start, [Advance(0)], mid, [Advance(0)], w);
    assert [Advance(0)] + [Advance(0)] == [Advance(0), Advance(0)];
    TasksAreGood(init, id, call);
  }

  lemma TasksAreGood(init: Db, id: Id, call: Call)
    requires Legal(init, Money(call))
    ensures GoodTasks(init, ReadPostRead(id, call))
  {
    hide Fresh, ValidRequest;
  }

  // It writes the old balance over whatever the posting has put there.
  lemma FirstPrimes(w: World, id: Id, balance: int, arith: Arith) returns (after: World)
    requires |w.procs| == 3 && w.procs[0] == Proc(Read(id), Priming(balance))
    ensures Runs.Leads(Moving(arith), w, [Advance(0)], after)
    ensures after.db == w.db && after.cache == w.cache[id := balance]
    ensures after.procs == w.procs[0 := Proc(Read(id), Answered(Ok(balance)))]
  {
    hide Runs.Leads, SpansAfter;
    assert Enabled(w, Advance(0));
    LeadsByOne(w, Advance(0), arith);
    after := Next(w, Advance(0), arith);
  }

  // A read that begins now answers what is cached.
  lemma SecondReads(w: World, id: Id, arith: Arith) returns (after: World)
    requires |w.procs| == 3 && w.procs[2] == Proc(Read(id), Arriving) && id in w.db.wallets && id in w.cache
    ensures Runs.Leads(Moving(arith), w, [Advance(2), Advance(2)], after)
    ensures after.db == w.db && after.cache == w.cache && |after.procs| == 3
    ensures after.procs[2] == Proc(Read(id), Answered(Ok(w.cache[id])))
  {
    hide Runs.Leads, SpansAfter;
    var mid := Next(w, Advance(2), arith);
    assert Enabled(w, Advance(2)) && Enabled(mid, Advance(2));
    LeadsByOne(w, Advance(2), arith);
    LeadsByOne(mid, Advance(2), arith);
    after := Next(mid, Advance(2), arith);
    Runs.Join(Moving(arith), w, [Advance(2)], mid, [Advance(2)], after);
    assert [Advance(2)] + [Advance(2)] == [Advance(2), Advance(2)];
  }

  lemma PostsAlone(init: Db, id: Id, call: Call, w: World, arith: Arith) returns (events: seq<Event>, after: World)
    requires Decide(init, call).Posts? && Reaches(init, ReadPostRead(id, call), [Advance(0), Advance(0)], w, arith)
    requires w.db == init && w.locks == map[] && |w.procs| == 3 && w.procs[1] == Proc(Move(call), Arriving)
    ensures Only(events, 1) && Runs.Leads(Moving(arith), w, events, after)
    ensures after.db == Step(init, Money(call), arith) && |after.procs| == 3
    ensures after.procs == w.procs[1 := after.procs[1]] && after.procs[1].stage.Finished?
  {
    hide Ordered, AllClimb, Runs.Leads, Decide, Step, TotalWeight;
    ReachedOrdered(init, ReadPostRead(id, call), [Advance(0), Advance(0)], w, arith);
    RunsAreBounded(init, ReadPostRead(id, call), [Advance(0), Advance(0)], w, arith);
    hide Reaches;
    var first, mid := CommitsAlone(init, w, 1, Decide(init, call).movement, arith);
    var second;
    second, after := AnswersAlone(init, mid, 1, arith);
    Runs.Join(Moving(arith), w, first, mid, second, after);
    events := first + second;
  }

  // Nothing fails and nothing expires, and yet: a read reads the row, a posting on the same wallet
  // commits, refreshes the cache and answers, and the read then primes the cache with what it read. A
  // read that begins when all else has answered is told the old balance, and the cache stays wrong.
  lemma StaleRead(init: Db, id: Id, call: Call, arith: Arith)
      returns (first: seq<Event>, mid: World, second: seq<Event>, w: World)
    requires id in init.wallets && Legal(init, Money(call)) && Decide(init, call).Posts?
    requires After(init, call, arith).wallets[id].balance != init.wallets[id].balance
    ensures OnlyAdvances(first) && Reaches(init, ReadPostRead(id, call), first, mid, arith)
    ensures |mid.procs| == 3 && Done(mid.procs[0]) && Done(mid.procs[1]) && mid.procs[2] == Proc(Read(id), Arriving)
    ensures OnlyAdvances(second) && Runs.Leads(Moving(arith), mid, second, w)
    ensures |w.procs| == 3 && w.procs[2].stage == Answered(Ok(init.wallets[id].balance))
    ensures w.db == Step(init, Money(call), arith)
    ensures id in w.db.wallets && w.db.wallets[id].balance != init.wallets[id].balance
    ensures id in w.cache && w.cache[id] == init.wallets[id].balance
  {
    hide Decide, Legal, Runs.Leads, Post;
    var a := FirstReads(init, id, call, arith);
    var events, b := PostsAlone(init, id, call, a, arith);
    mid := FirstPrimes(b, id, init.wallets[id].balance, arith);
    var start := Begin(init, ReadPostRead(id, call));
    Runs.Join(Moving(arith), start, [Advance(0), Advance(0)], a, events, b);
    Runs.Join(Moving(arith), start, [Advance(0), Advance(0)] + events, b, [Advance(0)], mid);
    first := [Advance(0), Advance(0)] + events + [Advance(0)];
    PostKeepsWallets(init, call, arith);
    w := SecondReads(mid, id, arith);
    second := [Advance(2), Advance(2)];
  }

  lemma PostKeepsWallets(db: Db, call: Call, arith: Arith)
    ensures db.wallets.Keys <= After(db, call, arith).wallets.Keys
  {
    hide Decide, PostRows, PostKeys, EventFor, Entries, Moved;
  }

  lemma OpenedRow()
    ensures CUSTOMER in OPENED.wallets && OPENED.wallets[CUSTOMER].balance == 0
  {
  }

  // It happens to a customer's first deposit: zero is answered while ten is stored.
  lemma StaleReadHappens() returns (events: seq<Event>, w: World)
    ensures OnlyAdvances(events) && Reaches(OPENED, ReadPostRead(CUSTOMER, DEPOSIT), events, w, Unbounded)
    ensures Reachable(OPENED) && |w.procs| == 3 && w.procs[2].stage == Answered(Ok(0))
    ensures CUSTOMER in w.db.wallets && w.db.wallets[CUSTOMER].balance == 10
    ensures CUSTOMER in w.cache && w.cache[CUSTOMER] == 0
  {
    hide Decide, Step, After, Legal, Reachable, Reaches, OnlyAdvances, Runs.Leads, GetTransaction, EventText, GoodTasks;
    OpenedIsReachable();
    OpenedRow();
    var db := DepositedDb();
    StepIsAfter(OPENED, DEPOSIT);
    PostedAsDecided();
    var first, mid, second, after := StaleRead(OPENED, CUSTOMER, DEPOSIT, Unbounded);
    JoinReaches(OPENED, ReadPostRead(CUSTOMER, DEPOSIT), first, mid, second, after, Unbounded);
    OnlyAdvancesJoin(first, second);
    events, w := first + second, after;
  }

  lemma StepIsAfter(db: Db, call: Call)
    ensures Step(db, Money(call), Unbounded) == After(db, call, Unbounded)
  {
  }

  lemma PostedAsDecided()
    ensures Decide(OPENED, DEPOSIT).Posts?
  {
    DepositPosts();
  }

  lemma JoinReaches(init: Db, tasks: seq<Task>, first: seq<Event>, mid: World, second: seq<Event>, w: World,
      arith: Arith)
    requires Reaches(init, tasks, first, mid, arith) && Runs.Leads(Moving(arith), mid, second, w)
    ensures Reaches(init, tasks, first + second, w, arith)
  {
    hide Runs.Leads;
    Runs.Join(Moving(arith), Begin(init, tasks), first, mid, second, w);
  }

  lemma OnlyAdvancesJoin(first: seq<Event>, second: seq<Event>)
    requires OnlyAdvances(first) && OnlyAdvances(second)
    ensures OnlyAdvances(first + second)
  {
  }
}
