// What callers are told: every reply is the serial engine's reply at some point of the log between the
// call's first statement and its answer, but for failures and for keys taken in between.
module Replies {
  import opened Wrappers
  import opened Uuid
  import opened Model
  import opened Engine
  import opened Interleaving
  import opened Isolation
  import opened Serial
  import Runs

  // ---------- Points of the log ----------

  predicate AnswersAt(init: Db, log: seq<DbOp>, arith: Arith, call: Call, reply: Result<Response, Error>, n: nat)
    requires n <= |log|
  {
    Answer(Run(init, log[..n], arith), call) == reply
  }

  // The serial engine gives this reply at some point from one place of the log to another.
  ghost predicate AnsweredBetween(init: Db, log: seq<DbOp>, arith: Arith, call: Call, reply: Result<Response, Error>,
      since: nat, until: nat)
  {
    exists n :: since <= n <= until && n <= |log| && AnswersAt(init, log, arith, call, reply, n)
  }

  // Entry k of the log is the posting of this call, and this is its reply.
  predicate PostedAt(init: Db, log: seq<DbOp>, arith: Arith, call: Call, k: nat, response: Response)
  {
    k < |log| && log[k] == Money(call) && Decide(Run(init, log[..k], arith), call).Posts?
    && Answer(Run(init, log[..k], arith), call) == Ok(response)
  }

  predicate MissedAt(init: Db, log: seq<DbOp>, arith: Arith, call: Call, n: nat)
    requires n <= |log|
  {
    Lookup(Run(init, log[..n], arith).keys, call) == Miss
  }

  // The look-up found no answer at the one place, and the key is taken at the other.
  predicate TakenBetween(init: Db, log: seq<DbOp>, arith: Arith, call: Call, since: nat, until: nat)
  {
    since <= until <= |log| && call.key != "" && MissedAt(init, log, arith, call, since)
    && SlotOf(call) in Run(init, log[..until], arith).keys
  }

  // What a process may say, and what it must remember until it says it.
  ghost predicate Replied(init: Db, log: seq<DbOp>, arith: Arith, p: Proc, span: Span)
  {
    p.task.Move? && !p.stage.Arriving? ==>
      var call := p.task.call;
      span.since <= |log|
      && match p.stage
         case Inserting => MissedAt(init, log, arith, call, span.since)
         case LockingWallets(_, m, ids, rows) =>
           forall id | id in LockIds(m) ::
             id in ids || id in rows || AnsweredBetween(init, log, arith, call, Err(NotFound), span.since, |log|)
         case Refreshing(response, _, at) => span.since <= at && PostedAt(init, log, arith, call, at, response)
         case Finished(reply, Some(at)) =>
           span.since <= at < span.until <= |log| && reply.Ok? && PostedAt(init, log, arith, call, at, reply.value)
         case Finished(reply, None) =>
           span.since <= span.until <= |log|
           && (reply == Err(Internal)
               || (reply == Err(Conflict) && TakenBetween(init, log, arith, call, span.since, span.until))
               || AnsweredBetween(init, log, arith, call, reply, span.since, span.until))
         case _ => true
  }

  ghost predicate AllReplied(init: Db, w: World, arith: Arith)
  {
    |w.spans| == |w.procs|
    && forall i {:trigger Replied(init, w.log, arith, w.procs[i], w.spans[i])} | 0 <= i < |w.procs| ::
         Replied(init, w.log, arith, w.procs[i], w.spans[i])
  }

  // ---------- The log only grows ----------

  lemma AnsweredLater(init: Db, log: seq<DbOp>, more: seq<DbOp>, arith: Arith, call: Call,
      reply: Result<Response, Error>, since: nat, until: nat, later: nat)
    requires AnsweredBetween(init, log, arith, call, reply, since, until) && log <= more && until <= later
    ensures AnsweredBetween(init, more, arith, call, reply, since, later)
  {
    var n :| since <= n <= until && n <= |log| && AnswersAt(init, log, arith, call, reply, n);
    assert more[..n] == log[..n];
    hide Run, Answer;
    assert AnswersAt(init, more, arith, call, reply, n);
  }

  lemma AnsweredNow(init: Db, log: seq<DbOp>, arith: Arith, call: Call, reply: Result<Response, Error>, since: nat)
    requires since <= |log| && reply == Answer(Run(init, log, arith), call)
    ensures AnsweredBetween(init, log, arith, call, reply, since, |log|)
  {
    hide Run, Answer;
    assert log[..|log|] == log;
    assert AnswersAt(init, log, arith, call, reply, |log|);
  }

  lemma PostedLater(init: Db, log: seq<DbOp>, more: seq<DbOp>, arith: Arith, call: Call, k: nat, response: Response)
    requires PostedAt(init, log, arith, call, k, response) && log <= more
    ensures PostedAt(init, more, arith, call, k, response)
  {
    hide Run, Answer, Decide;
    assert more[..k] == log[..k];
  }

  lemma MissedLater(init: Db, log: seq<DbOp>, more: seq<DbOp>, arith: Arith, call: Call, n: nat)
    requires n <= |log| && MissedAt(init, log, arith, call, n) && log <= more
    ensures MissedAt(init, more, arith, call, n)
  {
    hide Run, Lookup;
    assert more[..n] == log[..n];
  }

  lemma TakenLater(init: Db, log: seq<DbOp>, more: seq<DbOp>, arith: Arith, call: Call, since: nat, until: nat)
    requires TakenBetween(init, log, arith, call, since, until) && log <= more
    ensures TakenBetween(init, more, arith, call, since, until)
  {
    hide Run, Lookup;
    assert more[..since] == log[..since] && more[..until] == log[..until];
  }

  lemma RepliedLater(init: Db, log: seq<DbOp>, more: seq<DbOp>, arith: Arith, p: Proc, span: Span)
    requires Replied(init, log, arith, p, span) && log <= more
    ensures Replied(init, more, arith, p, span)
  {
    hide AnsweredBetween, PostedAt, TakenBetween, MissedAt, LockIds;
    if p.task.Move? && !p.stage.Arriving? {
      var call, since, until := p.task.call, span.since, span.until;
      match p.stage
      case Inserting => MissedLater(init, log, more, arith, call, since);
      case LockingWallets(_, m, ids, rows) =>
        if AnsweredBetween(init, log, arith, call, Err(NotFound), since, |log|) {
          AnsweredLater(init, log, more, arith, call, Err(NotFound), since, |log|, |more|);
        }
      case Refreshing(response, _, at) => PostedLater(init, log, more, arith, call, at, response);
      case Finished(reply, Some(at)) => PostedLater(init, log, more, arith, call, at, reply.value);
      case Finished(reply, None) =>
        if TakenBetween(init, log, arith, call, since, until) { TakenLater(init, log, more, arith, call, since, until);
            }
        if AnsweredBetween(init, log, arith, call, reply, since, until) {
          AnsweredLater(init, log, more, arith, call, reply, since, until, until);
        }
      case _ =>
    }
  }

  // ---------- The reply of one statement ----------

  // A call that finds a check failing is answered as the serial engine answers it now.
  lemma VetAnswers(db: Db, call: Call)
    requires Unused(db, call)
    ensures var vetted := Vet(call.request, Original(db, call.request));
            match vetted
            case Err(error) => Answer(db, call) == Err(error)
            case Ok(m) =>
              match Admit(m, db.wallets)
              case Some(error) => Answer(db, call) == Err(error)
              case None => Decide(db, call) == Posts(m)
  {
    hide GetTransaction, Vet, Admit;
  }

  lemma AdmitSame(m: Movement, rows: map<Id, Wallet>, wallets: map<Id, Wallet>)
    requires m.source in rows && m.source in wallets && rows[m.source] == wallets[m.source]
    requires m.destination in rows && m.destination in wallets && rows[m.destination] == wallets[m.destination]
    ensures Admit(m, rows) == Admit(m, wallets)
  {
  }

  lemma ReplyOfArriving(init: Db, log: seq<DbOp>, db: Db, arith: Arith, p: Proc, span: Span, next: Stage)
    requires p.task.Move? && p.stage.Arriving? && db == Run(init, log, arith)
    requires next == MoveStage(db, p.task.call, p.stage, |log|, arith)
    ensures Replied(init, log, arith, p.(stage := next), Clock(span, p.stage, next, |log|))
  {
    hide Run, AnsweredBetween, Judge;
    assert log[..|log|] == log;
    if next.Finished? { AnsweredNow(init, log, arith, p.task.call, next.reply, |log|); }
  }

  lemma ReplyOfInserting(init: Db, log: seq<DbOp>, db: Db, arith: Arith, p: Proc, span: Span, next: Stage)
    requires p.task.Move? && p.stage.Inserting? && db == Run(init, log, arith)
    requires Replied(init, log, arith, p, span)
    requires next == MoveStage(db, p.task.call, p.stage, |log|, arith)
    ensures Replied(init, log, arith, p.(stage := next), Clock(span, p.stage, next, |log|))
  {
    hide Run, AnsweredBetween, Lookup;
    assert log[..|log|] == log;
  }

  lemma ReplyOfRow(init: Db, log: seq<DbOp>, db: Db, arith: Arith, p: Proc, span: Span, next: Stage)
    requires p.task.Move? && p.stage.LockingRow? && InFlight(db, p) && db == Run(init, log, arith)
    requires Replied(init, log, arith, p, span)
    requires next == MoveStage(db, p.task.call, p.stage, |log|, arith)
    ensures Replied(init, log, arith, p.(stage := next), Clock(span, p.stage, next, |log|))
  {
    hide GetTransaction, Vet, Admit, Run, AnsweredBetween, Answer, Legal, LockIds;
    VetAnswers(db, p.task.call);
    if next.Finished? { AnsweredNow(init, log, arith, p.task.call, next.reply, span.since); }
  }

  lemma ReplyOfWallets(init: Db, log: seq<DbOp>, db: Db, arith: Arith, p: Proc, span: Span, next: Stage)
    requires p.task.Move? && p.stage.LockingWallets? && InFlight(db, p) && db == Run(init, log, arith)
    requires Replied(init, log, arith, p, span)
    requires next == MoveStage(db, p.task.call, p.stage, |log|, arith)
    ensures Replied(init, log, arith, p.(stage := next), Clock(span, p.stage, next, |log|))
  {
    hide GetTransaction, Vet, Run, AnsweredBetween, Answer, Legal, Decide;
    var call, m, ids, rows := p.task.call, p.stage.m, p.stage.ids, p.stage.rows;
    VetAnswers(db, call);
    AnsweredNow(init, log, arith, call, Answer(db, call), span.since);
    if ids == [] {
      if m.source in rows && m.destination in rows {
        AdmitSame(m, rows, db.wallets);
      } else {
        assert m.source in LockIds(m) && m.destination in LockIds(m);
      }
    } else {
      forall id | id in LockIds(m)
        ensures id in next.ids || id in next.rows
             || AnsweredBetween(init, log, arith, call, Err(NotFound), span.since, |log|)
      {
        if id == ids[0] && id !in db.wallets { assert Admit(m, db.wallets) == Some(NotFound); }
      }
    }
  }

  lemma ReplyOfLate(init: Db, log: seq<DbOp>, db: Db, arith: Arith, p: Proc, span: Span, next: Stage)
    requires p.task.Move? && (p.stage.Writing? || p.stage.Refreshing?) && !Commits(p, arith)
    requires Replied(init, log, arith, p, span)
    requires next == MoveStage(db, p.task.call, p.stage, |log|, arith)
    ensures Replied(init, log, arith, p.(stage := next), Clock(span, p.stage, next, |log|))
  {
    hide Run, Decide, Answer, AnsweredBetween, TakenBetween, Script;
  }

  lemma ReplyOfMove(init: Db, log: seq<DbOp>, db: Db, arith: Arith, p: Proc, span: Span, next: Stage)
    requires p.task.Move? && StageFits(p) && !Done(p) && InFlight(db, p) && db == Run(init, log, arith)
        && !Commits(p, arith)
    requires Replied(init, log, arith, p, span)
    requires next == MoveStage(db, p.task.call, p.stage, |log|, arith)
    ensures Replied(init, log, arith, p.(stage := next), Clock(span, p.stage, next, |log|))
  {
    hide InFlight, Replied, MoveStage, Clock, Run, Commits;
    match p.stage
    case Arriving => ReplyOfArriving(init, log, db, arith, p, span, next);
    case Inserting => ReplyOfInserting(init, log, db, arith, p, span, next);
    case LockingRow => ReplyOfRow(init, log, db, arith, p, span, next);
    case LockingWallets(_, _, _, _) => ReplyOfWallets(init, log, db, arith, p, span, next);
    case _ => ReplyOfLate(init, log, db, arith, p, span, next);
  }

  lemma ReplyOfCommit(init: Db, log: seq<DbOp>, db: Db, arith: Arith, p: Proc, span: Span, next: Stage)
    requires p.task.Move? && p.stage.Writing? && InFlight(db, p) && db == Run(init, log, arith) && Commits(p, arith)
    requires Replied(init, log, arith, p, span)
    requires next == MoveStage(db, p.task.call, p.stage, |log|, arith)
    ensures Replied(init, log + [Money(p.task.call)], arith, p.(stage := next), Clock(span, p.stage, next, |log|))
  {
    CommitStage(db, p, |log|, arith);
    CommitIsStep(db, p, arith);
    hide Decide, InFlight, Run, Apply, Step, Post, ScriptOf, NewTransaction, NewBalances, MoveStage, Commits;
    assert (log + [Money(p.task.call)])[..|log|] == log;
  }

  lemma ReplyOfFault(init: Db, log: seq<DbOp>, arith: Arith, p: Proc, span: Span)
    requires StageFits(p) && !Done(p) && Replied(init, log, arith, p, span)
    ensures var next := FaultStage(p);
            Replied(init, log, arith, p.(stage := next), Clock(span, p.stage, next, |log|))
  {
    hide Run, Decide, Answer, AnsweredBetween, TakenBetween, LockIds;
  }

  lemma ReplyOfRead(init: Db, log: seq<DbOp>, arith: Arith, p: Proc, span: Span)
    requires p.task.Read?
    ensures Replied(init, log, arith, p, span)
  {
  }

  // ---------- One event ----------

  lemma SetReply(init: Db, w: World, i: nat, after: World, arith: Arith)
    requires AllReplied(init, w, arith) && i < |w.procs| && w.log <= after.log
    requires |after.procs| == |w.procs| && |after.spans| == |w.spans|
    requires forall j | 0 <= j < |w.procs| && j != i :: after.procs[j] == w.procs[j] && after.spans[j] == w.spans[j]
    requires Replied(init, after.log, arith, after.procs[i], after.spans[i])
    ensures AllReplied(init, after, arith)
  {
    hide Replied;
    forall j | 0 <= j < |after.procs| ensures Replied(init, after.log, arith, after.procs[j], after.spans[j]) {
      if j != i { RepliedLater(init, w.log, after.log, arith, w.procs[j], w.spans[j]); }
    }
  }

  lemma GrowReplies(init: Db, w: World, after: World, arith: Arith)
    requires AllReplied(init, w, arith) && w.log <= after.log && after.procs == w.procs && after.spans == w.spans
    ensures AllReplied(init, after, arith)
  {
    hide Replied;
    forall j | 0 <= j < |after.procs| ensures Replied(init, after.log, arith, after.procs[j], after.spans[j]) {
      RepliedLater(init, w.log, after.log, arith, w.procs[j], w.spans[j]);
    }
  }

  lemma AdvanceReplied(init: Db, w: World, i: nat, arith: Arith)
    requires Ordered(init, w, arith) && AllReplied(init, w, arith) && CanAdvance(w, i)
    ensures AllReplied(init, DoAdvance(w, i, arith), arith)
  {
    OrderedParts(init, w, i, arith);
    hide Ordered, Run, LegalRun, InFlight, Replied, LocksAfter, CacheAfter, ScriptOf, Apply, MoveStage, ReadStage,
        Clock, StageFits, Wanted, Commits, Done;
    var p, after := w.procs[i], DoAdvance(w, i, arith);
    assert Replied(init, w.log, arith, p, w.spans[i]);
    if p.task.Read? {
      ReplyOfRead(init, after.log, arith, after.procs[i], after.spans[i]);
    } else if Commits(p, arith) {
      CommitsInWriting(p, arith);
      ReplyOfCommit(init, w.log, w.db, arith, p, w.spans[i], after.procs[i].stage);
    } else {
      ReplyOfMove(init, w.log, w.db, arith, p, w.spans[i], after.procs[i].stage);
    }
    SetReply(init, w, i, after, arith);
  }

  lemma CommitsInWriting(p: Proc, arith: Arith)
    requires Commits(p, arith)
    ensures p.stage.Writing?
  {
  }

  lemma NextReplied(init: Db, w: World, event: Event, arith: Arith)
    requires Ordered(init, w, arith) && AllReplied(init, w, arith) && Enabled(w, event)
    ensures AllReplied(init, Next(w, event, arith), arith)
  {
    hide Ordered, Replied;
    match event
    case Advance(i) => hide AllReplied, DoAdvance, CanAdvance; AdvanceReplied(init, w, i, arith);
    case Fault(i) =>
      hide FaultStage, StageFits, Done, Clock;
      assert Replied(init, w.log, arith, w.procs[i], w.spans[i]);
      ReplyOfFault(init, w.log, arith, w.procs[i], w.spans[i]);
      SetReply(init, w, i, DoFault(w, i), arith);
    case Other(op) => hide Step; GrowReplies(init, w, Next(w, event, arith), arith);
    case Expire(id) => GrowReplies(init, w, Next(w, event, arith), arith);
  }

  lemma BeginReplied(init: Db, tasks: seq<Task>, arith: Arith)
    ensures AllReplied(init, Begin(init, tasks), arith)
  {
  }

  lemma {:induction false} RunReplied(init: Db, w: World, events: seq<Event>, after: World, arith: Arith)
    requires Ordered(init, w, arith) && AllReplied(init, w, arith) && Runs.Leads(Moving(arith), w, events, after)
    ensures AllReplied(init, after, arith)
    decreases |events|
  {
    hide Ordered, AllReplied, Enabled, Next, Runs.Leads;
    if events == [] {
      Runs.Nowhere(Moving(arith), w, events, after);
    } else {
      var mid := Runs.GoBack(Moving(arith), w, events, after);
      RunOrdered(init, w, events[..|events| - 1], mid, arith);
      RunReplied(init, w, events[..|events| - 1], mid, arith);
      NextReplied(init, mid, events[|events| - 1], arith);
    }
  }

  lemma ReachedReplied(init: Db, tasks: seq<Task>, events: seq<Event>, w: World, arith: Arith)
    requires Reaches(init, tasks, events, w, arith)
    ensures Ordered(init, w, arith) && AllReplied(init, w, arith)
  {
    BeginOrdered(init, tasks, arith);
    BeginReplied(init, tasks, arith);
    hide Ordered, AllReplied, Runs.Leads;
    RunOrdered(init, Begin(init, tasks), events, w, arith);
    RunReplied(init, Begin(init, tasks), events, w, arith);
  }

  // ---------- What a caller is told ----------

  ghost predicate ToldSerially(init: Db, w: World, arith: Arith, i: nat)
    requires i < |w.procs| && |w.spans| == |w.procs|
  {
    var p, span := w.procs[i], w.spans[i];
    p.task.Move? && p.stage.Finished? ==>
      match p.stage.commit
      case Some(at) =>
        span.since <= at < span.until && p.stage.reply.Ok?
        && PostedAt(init, w.log, arith, p.task.call, at, p.stage.reply.value)
      case None =>
        p.stage.reply == Err(Internal)
        || (p.stage.reply == Err(Conflict) && TakenBetween(init, w.log, arith, p.task.call, span.since, span.until))
        || AnsweredBetween(init, w.log, arith, p.task.call, p.stage.reply, span.since, span.until)
  }

  // Linearisability. In every interleaving a call that commits is answered as the serial engine answers
  // it at its own place in the log, and any other call as the serial engine answers it at some place;
  // either place lies between the call's first statement and its answer. The only replies beside these
  // are an internal error, and a conflict over a key that was taken between the two.
  lemma Linearisable(init: Db, tasks: seq<Task>, events: seq<Event>, w: World, arith: Arith)
    requires Reaches(init, tasks, events, w, arith)
    ensures |w.spans| == |w.procs|
    ensures forall i | 0 <= i < |w.procs| :: ToldSerially(init, w, arith, i)
  {
    hide Reaches, Ordered, Run, PostedAt, AnsweredBetween, TakenBetween;
    ReachedReplied(init, tasks, events, w, arith);
    forall i | 0 <= i < |w.procs| ensures ToldSerially(init, w, arith, i) {
      assert Replied(init, w.log, arith, w.procs[i], w.spans[i]);
    }
  }

  // ---------- Internal errors are failures ----------

  predicate SaysInternal(p: Proc)
  {
    (p.stage.Finished? && p.stage.reply == Err(Internal)) || (p.stage.Answered? && p.stage.answer == Err(Internal))
  }

  lemma MoveSaysNoInternal(db: Db, keysOf: Proc, at: nat, arith: Arith)
    requires keysOf.task.Move? && !SaysInternal(keysOf)
    ensures !SaysInternal(keysOf.(stage := MoveStage(db, keysOf.task.call, keysOf.stage, at, arith)))
  {
    hide Lookup, GetTransaction, Script;
  }

  lemma NextSaysNoInternal(w: World, event: Event, arith: Arith, i: nat)
    requires Enabled(w, event) && event != Fault(i) && i < |w.procs| && !SaysInternal(w.procs[i])
    ensures i < |Next(w, event, arith).procs| && !SaysInternal(Next(w, event, arith).procs[i])
  {
    hide SaysInternal, MoveStage, ReadStage, FaultStage, LocksAfter, CacheAfter, SpansAfter, Commits, ScriptOf, Apply,
        Step;
    if event == Advance(i) {
      var p := w.procs[i];
      if p.task.Move? { MoveSaysNoInternal(w.db, p, |w.log|, arith); } else { ReadSaysNoInternal(w.db, w.cache, p); }
    }
  }

  lemma ReadSaysNoInternal(db: Db, cache: map<Id, int>, p: Proc)
    requires p.task.Read? && !SaysInternal(p)
    ensures !SaysInternal(p.(stage := ReadStage(db, cache, p.task.wallet, p.stage)))
  {
  }

  // A process whose calls to the database never fail never answers an internal error.
  lemma InternalMeansFault(init: Db, tasks: seq<Task>, events: seq<Event>, w: World, arith: Arith, i: nat)
    requires Reaches(init, tasks, events, w, arith) && i < |w.procs| && SaysInternal(w.procs[i])
    ensures Fault(i) in events
  {
    var start := Begin(init, tasks);
    hide Runs.Leads, GoodTasks;
    if Fault(i) !in events { RunSaysNoInternal(start, events, w, arith, i); }
  }

  lemma {:induction false} RunSaysNoInternal(w: World, events: seq<Event>, after: World, arith: Arith, i: nat)
    requires Runs.Leads(Moving(arith), w, events, after) && Fault(i) !in events
    requires i < |w.procs| ==> !SaysInternal(w.procs[i])
    ensures |after.procs| == |w.procs| && (i < |w.procs| ==> !SaysInternal(after.procs[i]))
    decreases |events|
  {
    hide Runs.Leads, Enabled, Next, SaysInternal;
    if events == [] {
      Runs.Nowhere(Moving(arith), w, events, after);
    } else {
      var mid := Runs.GoBack(Moving(arith), w, events, after);
      RunSaysNoInternal(w, events[..|events| - 1], mid, arith, i);
      NextKeepsCount(mid, events[|events| - 1], arith);
      if i < |w.procs| { NextSaysNoInternal(mid, events[|events| - 1], arith, i); }
    }
  }

  lemma NextKeepsCount(w: World, event: Event, arith: Arith)
    requires Enabled(w, event)
    ensures |Next(w, event, arith).procs| == |w.procs|
  {
    hide MoveStage, ReadStage, FaultStage, LocksAfter, CacheAfter, SpansAfter, Commits, ScriptOf, Apply, Step;
  }

  // A balance read is failed only by the database: once it has the row, no failure of the cache shows.
  lemma CacheFailureHidden(w: World, i: nat)
    requires CanFail(w, i) && w.procs[i].task.Read? && !w.procs[i].stage.Arriving?
    ensures !SaysInternal(DoFault(w, i).procs[i])
    ensures DoFault(w, i).cache == w.cache
  {
    hide SpansAfter;
  }

  // ---------- A conflict has another side ----------

  // Every record has its answer, as in every reachable database.
  predicate KeysAnswered(keys: map<Slot, IdempotencyRecord>)
  {
    forall slot | slot in keys :: keys[slot].response.Some?
  }

  lemma StepKeepsAnswers(db: Db, op: DbOp, arith: Arith)
    requires KeysAnswered(db.keys)
    ensures KeysAnswered(Step(db, op, arith).keys)
  {
    hide Decide, PostWallets, PostRows, EventFor, Entries;
  }

  lemma {:induction false} RunKeepsAnswers(init: Db, log: seq<DbOp>, arith: Arith)
    requires KeysAnswered(init.keys)
    ensures KeysAnswered(Run(init, log, arith).keys)
    decreases |log|
  {
    hide Step, KeysAnswered;
    if log == [] {
    } else {
      RunKeepsAnswers(init, log[..|log| - 1], arith);
      StepKeepsAnswers(Run(init, log[..|log| - 1], arith), log[|log| - 1], arith);
    }
  }

  lemma NoSerialConflict(db: Db, call: Call)
    requires KeysAnswered(db.keys)
    ensures Answer(db, call) != Err(Conflict)
    ensures Lookup(db.keys, call) == Miss && call.key != "" ==> SlotOf(call) !in db.keys
  {
    hide GetTransaction;
  }

  lemma StepTakes(db: Db, op: DbOp, arith: Arith, slot: Slot)
    requires slot !in db.keys && slot in Step(db, op, arith).keys
    ensures op.Money? && op.call.key != "" && SlotOf(op.call) == slot && Decide(db, op.call).Posts?
  {
    hide Decide, PostWallets, PostRows, EventFor, Entries;
  }

  // The entry of the log that took a key.
  lemma {:induction false} TakenAt(init: Db, log: seq<DbOp>, arith: Arith, slot: Slot, since: nat, until: nat)
      returns (k: nat)
    requires since <= until <= |log|
    requires slot !in Run(init, log[..since], arith).keys && slot in Run(init, log[..until], arith).keys
    ensures since <= k < until && log[k].Money? && log[k].call.key != "" && SlotOf(log[k].call) == slot
    ensures Decide(Run(init, log[..k], arith), log[k].call).Posts?
    decreases until
  {
    hide Step, Decide;
    k := until - 1;
    assert log[..until][..k] == log[..k];
    if slot in Run(init, log[..k], arith).keys {
      k := TakenAt(init, log, arith, slot, since, k);
    } else {
      StepTakes(Run(init, log[..k], arith), log[k], arith, slot);
    }
  }

  // A call that is told of a conflict lost its key to another call: that one committed under the same
  // key after this one's look-up and before its answer.
  lemma ConflictMeansRival(init: Db, tasks: seq<Task>, events: seq<Event>, w: World, arith: Arith, i: nat)
      returns (j: nat, k: nat)
    requires Reaches(init, tasks, events, w, arith) && KeysAnswered(init.keys)
    requires i < |w.procs| && w.procs[i].task.Move? && w.procs[i].stage.Finished?
    requires w.procs[i].stage.reply == Err(Conflict)
    ensures |w.spans| == |w.procs| && w.spans[i].since <= k < w.spans[i].until <= |w.log|
    ensures j < |w.procs| && j != i && CommittedAs(w, j, k)
    ensures SlotOf(CallOf(w.procs[j].task)) == SlotOf(w.procs[i].task.call) && w.procs[i].task.call.key != ""
  {
    hide Reaches, Run, LegalRun, PostedAt, AnsweredBetween, Lookup, Answer, KeysAnswered;
    Linearisable(init, tasks, events, w, arith);
    Serialisable(init, tasks, events, w, arith);
    assert ToldSerially(init, w, arith, i);
    var call, span := w.procs[i].task.call, w.spans[i];
    NotAnsweredConflict(init, w.log, arith, call, span.since, span.until);
    RunKeepsAnswers(init, w.log[..span.since], arith);
    NoSerialConflict(Run(init, w.log[..span.since], arith), call);
    k := TakenAt(init, w.log, arith, SlotOf(call), span.since, span.until);
    assert Committer(w, k);
    j :| 0 <= j < |w.procs| && CommittedAs(w, j, k);
  }

  lemma NotAnsweredConflict(init: Db, log: seq<DbOp>, arith: Arith, call: Call, since: nat, until: nat)
    requires KeysAnswered(init.keys)
    ensures !AnsweredBetween(init, log, arith, call, Err(Conflict), since, until)
  {
    hide Run, Answer, KeysAnswered;
    forall n | since <= n <= until && n <= |log| ensures !AnswersAt(init, log, arith, call, Err(Conflict), n) {
      RunKeepsAnswers(init, log[..n], arith);
      NoSerialConflict(Run(init, log[..n], arith), call);
    }
  }
}
