// Many calls at once: each one is a process that moves statement by statement, takes locks and waits
// for them, and keeps its writes to itself until it commits.
module Interleaving {
  import opened Wrappers
  import opened Uuid
  import opened Model
  import opened Engine
  import opened Server
  import Runs

  // An inserted but uncommitted key, a locked transaction row, a locked wallet row.
  datatype Resource = KeyLock(slot: Slot) | RowLock(transaction: Id) | WalletLock(wallet: Id)

  datatype Task = Move(call: Call) | Read(wallet: Id)

  // Where a process stands. at is the place of its commit in the log.
  datatype Stage =
    | Arriving
    | Inserting
    | LockingRow
    | LockingWallets(original: Option<Transaction>, m: Movement, ids: seq<Id>, rows: map<Id, Wallet>)
    | Writing(original: Option<Transaction>, m: Movement, rows: map<Id, Wallet>, done: nat)
    | Refreshing(response: Response, pending: seq<(Id, int)>, at: nat)
    | Finished(reply: Result<Response, Error>, commit: Option<nat>)
    | RowRead(balance: int)
    | Priming(balance: int)
    | Answered(answer: Result<int, Error>)

  datatype Proc = Proc(task: Task, stage: Stage)

  // When a process made its first statement and when it answered, in entries of the log.
  datatype Span = Span(since: nat, until: nat)

  // The log lists what has been committed, in order; spans[i] is kept for process i.
  datatype World = World(
    db: Db, procs: seq<Proc>, spans: seq<Span>, locks: map<Resource, nat>, cache: map<Id, int>, log: seq<DbOp>)

  // Fault is a failed database or cache call of a process. Other is another writer of the database.
  datatype Event = Advance(proc: nat) | Fault(proc: nat) | Other(op: DbOp) | Expire(id: Id)

  // ---------- Locks ----------

  // The wallets that a movement locks, lowest id first.
  function LockIds(m: Movement): (ids: seq<Id>)
    ensures |ids| <= 2
    ensures forall id :: id in ids <==> id == m.source || id == m.destination
    ensures forall i, j | 0 <= i < j < |ids| :: ids[i] < ids[j]
  {
    if m.source < m.destination then [m.source, m.destination]
    else if m.destination < m.source then [m.destination, m.source]
    else [m.source]
  }

  function KeyPart(call: Call): set<Resource>
  {
    if call.key == "" then {} else {KeyLock(SlotOf(call))}
  }

  function RowPart(original: Option<Transaction>): set<Resource>
  {
    match original
    case Some(row) => {RowLock(row.id)}
    case None => {}
  }

  function WalletPart(rows: map<Id, Wallet>): (locks: set<Resource>)
    ensures forall id :: WalletLock(id) in locks <==> id in rows
    ensures forall r | r in locks :: r.WalletLock?
  {
    set id | id in rows :: WalletLock(id)
  }

  function Holdings(p: Proc): set<Resource>
  {
    match p.task
    case Read(_) => {}
    case Move(call) =>
      match p.stage
      case LockingRow => KeyPart(call)
      case LockingWallets(original, _, _, rows) => KeyPart(call) + RowPart(original) + WalletPart(rows)
      case Writing(original, _, rows, _) => KeyPart(call) + RowPart(original) + WalletPart(rows)
      case _ => {}
  }

  // What the next statement of a process has to lock first, if anything.
  function Wanted(db: Db, p: Proc): Option<Resource>
  {
    match p.task
    case Read(_) => None
    case Move(call) =>
      match p.stage
      case Inserting => if call.key != "" && SlotOf(call) !in db.keys then Some(KeyLock(SlotOf(call))) else None
      case LockingRow =>
        if Original(db, call.request).Some? then Some(RowLock(call.request.transaction)) else None
      case LockingWallets(_, _, ids, _) => if ids != [] && ids[0] in db.wallets then Some(WalletLock(ids[0])) else None
      case _ => None
  }

  predicate Done(p: Proc) { p.stage.Finished? || p.stage.Answered? }

  // A process can move when it is not done and nobody holds what it wants.
  predicate CanAdvance(w: World, i: nat)
  {
    i < |w.procs| && StageFits(w.procs[i]) && !Done(w.procs[i])
    && (Wanted(w.db, w.procs[i]).Some? ==> Wanted(w.db, w.procs[i]).value !in w.locks)
  }

  predicate StageFits(p: Proc)
  {
    match p.task
    case Read(_) => p.stage.Arriving? || p.stage.RowRead? || p.stage.Priming? || p.stage.Answered?
    case Move(_) => !p.stage.RowRead? && !p.stage.Priming? && !p.stage.Answered?
  }

  // ---------- One statement ----------

  function ScriptOf(call: Call, stage: Stage, arith: Arith): seq<Write>
    requires stage.Writing?
  {
    if stage.m.source in stage.rows && stage.m.destination in stage.rows
    then Script(call, stage.m, stage.original, stage.rows, arith)
    else []
  }

  predicate Commits(p: Proc, arith: Arith)
  {
    p.task.Move? && p.stage.Writing? && p.stage.done >= |ScriptOf(p.task.call, p.stage, arith)|
  }

  function NewBalances(stage: Stage, arith: Arith): seq<(Id, int)>
    requires stage.Writing?
  {
    if stage.m.source in stage.rows && stage.m.destination in stage.rows
    then TouchedBy(stage.rows, stage.m, arith)
    else []
  }

  function MoveStage(db: Db, call: Call, stage: Stage, at: nat, arith: Arith): Stage
  {
    match stage
    case Arriving =>
      if SelfTransfer(call.request) then Finished(Err(Validation), None)
      else (match Lookup(db.keys, call)
        case Mismatch => Finished(Err(IdempotencyConflict), None)
        case Hit(response) => Finished(Ok(response), None)
        case Miss => Inserting)
    case Inserting =>
      if call.key != "" && SlotOf(call) in db.keys then Finished(Err(Conflict), None) else LockingRow
    case LockingRow =>
      (match Vet(call.request, Original(db, call.request))
       case Err(error) => Finished(Err(error), None)
       case Ok(m) => LockingWallets(Original(db, call.request), m, LockIds(m), map[]))
    case LockingWallets(original, m, ids, rows) =>
      if ids == [] then
        (match Admit(m, rows)
         case Some(error) => Finished(Err(error), None)
         case None => Writing(original, m, rows, 0))
      else
        LockingWallets(original, m, ids[1..], if ids[0] in db.wallets then rows[ids[0] := db.wallets[ids[0]]] else rows)
    case Writing(original, m, rows, done) =>
      if done < |ScriptOf(call, stage, arith)| then Writing(original, m, rows, done + 1)
      else Refreshing(Response(201, NewTransaction(call, m)), NewBalances(stage, arith), at)
    case Refreshing(response, pending, place) =>
      if pending == [] then Finished(Ok(response), Some(place)) else Refreshing(response, pending[1..], place)
    case _ => stage
  }

  function ReadStage(db: Db, cache: map<Id, int>, wallet: Id, stage: Stage): Stage
  {
    match stage
    case Arriving => if wallet in db.wallets then RowRead(db.wallets[wallet].balance) else Answered(Err(NotFound))
    case RowRead(balance) => if wallet in cache then Answered(Ok(cache[wallet])) else Priming(balance)
    case Priming(balance) => Answered(Ok(balance))
    case _ => stage
  }

  function NextStage(w: World, p: Proc, arith: Arith): Stage
  {
    match p.task
    case Move(call) => MoveStage(w.db, call, p.stage, |w.log|, arith)
    case Read(wallet) => ReadStage(w.db, w.cache, wallet, p.stage)
  }

  // The cache write of a statement, if it is one.
  function CacheAfter(cache: map<Id, int>, p: Proc): map<Id, int>
  {
    match p.stage
    case Refreshing(_, pending, _) => if pending == [] then cache else cache[pending[0].0 := pending[0].1]
    case Priming(balance) => if p.task.Read? then cache[p.task.wallet := balance] else cache
    case _ => cache
  }

  predicate LetsGo(stage: Stage) { stage.Finished? || stage.Refreshing? }

  function Release(locks: map<Resource, nat>, i: nat): map<Resource, nat>
  {
    map r | r in locks && locks[r] != i :: locks[r]
  }

  function LocksAfter(w: World, i: nat, next: Stage): map<Resource, nat>
    requires i < |w.procs|
  {
    var taken := match Wanted(w.db, w.procs[i]) case Some(r) => w.locks[r := i] case None => w.locks;
    if LetsGo(next) then Release(taken, i) else taken
  }

  // The span of a process that goes from one stage to the next while the log has this length.
  function Clock(span: Span, stage: Stage, next: Stage, length: nat): Span
  {
    Span(if stage.Arriving? then length else span.since, if next.Finished? || next.Answered? then length
        else span.until)
  }

  function SpansAfter(w: World, i: nat, next: Stage): seq<Span>
    requires i < |w.procs|
  {
    if i < |w.spans| then w.spans[i := Clock(w.spans[i], w.procs[i].stage, next, |w.log|)] else w.spans
  }

  function DoAdvance(w: World, i: nat, arith: Arith): World
    requires CanAdvance(w, i)
  {
    var p := w.procs[i];
    var next := NextStage(w, p, arith);
    var commit := Commits(p, arith);
    World(if commit then Apply(w.db, ScriptOf(p.task.call, p.stage, arith)) else w.db,
          w.procs[i := p.(stage := next)],
          SpansAfter(w, i, next),
          LocksAfter(w, i, next),
          CacheAfter(w.cache, p),
          if commit then w.log + [Money(p.task.call)] else w.log)
  }

  // ---------- One failure ----------

  function FaultStage(p: Proc): Stage
  {
    match p.task
    case Move(_) =>
      (match p.stage
       case Refreshing(response, pending, at) =>
         if pending == [] then Finished(Ok(response), Some(at)) else Refreshing(response, pending[1..], at)
       case _ => Finished(Err(Internal), None))
    case Read(_) =>
      match p.stage
      case RowRead(balance) => Priming(balance)
      case Priming(balance) => Answered(Ok(balance))
      case _ => Answered(Err(Internal))
  }

  predicate CanFail(w: World, i: nat)
  {
    i < |w.procs| && StageFits(w.procs[i]) && !Done(w.procs[i])
  }

  // A failed statement changes nothing and, inside the database transaction, rolls it back.
  function DoFault(w: World, i: nat): World
    requires CanFail(w, i)
  {
    var next := FaultStage(w.procs[i]);
    w.(procs := w.procs[i := w.procs[i].(stage := next)], spans := SpansAfter(w, i, next),
       locks := if LetsGo(next) then Release(w.locks, i) else w.locks)
  }

  // ---------- Runs ----------

  predicate Enabled(w: World, event: Event)
  {
    match event
    case Advance(i) => CanAdvance(w, i)
    case Fault(i) => CanFail(w, i)
    case Other(op) => !op.Money? && (op.SetStatus? ==> WalletLock(op.id) !in w.locks)
    case Expire(_) => true
  }

  function Next(w: World, event: Event, arith: Arith): World
    requires Enabled(w, event)
  {
    match event
    case Advance(i) => DoAdvance(w, i, arith)
    case Fault(i) => DoFault(w, i)
    case Other(op) => w.(db := Step(w.db, op, arith), log := w.log + [op])
    case Expire(id) => w.(cache := w.cache - {id})
  }

  // The ids that calls draw are new and do not repeat.
  predicate GoodTasks(db: Db, tasks: seq<Task>)
  {
    && (forall i | 0 <= i < |tasks| && tasks[i].Move? ::
          ValidRequest(tasks[i].call.request) && Fresh(db, tasks[i].call))
    && (forall i, j | 0 <= i < j < |tasks| && tasks[i].Move? && tasks[j].Move? ::
          tasks[i].call.transactionId != tasks[j].call.transactionId && tasks[i].call.eventId != tasks[j].call.eventId)
  }

  // Any number of calls arrive at a database with an empty cache.
  function Begin(db: Db, tasks: seq<Task>): World
  {
    World(db, seq(|tasks|, i requires 0 <= i < |tasks| => Proc(tasks[i], Arriving)), seq(|tasks|, _ => Span(0, 0)),
          map[], map[], [])
  }

  // One event of the machine.
  function Moving(arith: Arith): (World, Event, World) -> bool
  {
    (w, event, after) => Enabled(w, event) && after == Next(w, event, arith)
  }

  // The events lead from the arrival of the tasks to this world.
  ghost predicate Reaches(init: Db, tasks: seq<Task>, events: seq<Event>, w: World, arith: Arith)
  {
    GoodTasks(init, tasks) && Runs.Leads(Moving(arith), Begin(init, tasks), events, w)
  }
}
