// Requests served one after another: the database, the balance cache beside it, and the replies.
module Server {
  import opened Wrappers
  import opened Uuid
  import opened Model
  import opened Engine
  import opened Books

  datatype State = State(db: Db, cache: map<Id, int>)

  // refreshFails: the wallets whose cache write after a posting fails.
  datatype Event =
    | Write(op: DbOp, refreshFails: set<Id>)
    | ReadBalance(id: Id, getFails: bool, setFails: bool)
    | Evict(id: Id)

  datatype Reply = Sent(result: Result<Response, Error>) | Balance(balance: Result<int, Error>) | Done

  // The wallets of a posting with their new balances, in the order the cache is told.
  function Touched(db: Db, call: Call, arith: Arith): seq<(Id, int)>
  {
    match Decide(db, call)
    case Posts(m) => TouchedBy(db.wallets, m, arith)
    case _ => []
  }

  function TouchedBy(wallets: map<Id, Wallet>, m: Movement, arith: Arith): seq<(Id, int)>
    requires m.source in wallets && m.destination in wallets
  {
    var after := PostWallets(wallets, m, arith);
    var (source, destination) := ((m.source, after[m.source].balance), (m.destination, after[m.destination].balance));
    if m.kind == Reversal then [destination, source] else [source, destination]
  }

  function Refresh(cache: map<Id, int>, touched: seq<(Id, int)>, fails: set<Id>): map<Id, int>
    decreases |touched|
  {
    if touched == [] then cache
    else
      var (id, balance) := touched[|touched| - 1];
      var earlier := Refresh(cache, touched[..|touched| - 1], fails);
      if id in fails then earlier else earlier[id := balance]
  }

  function Serve(s: State, event: Event, arith: Arith): (State, Reply)
  {
    match event
    case Write(op, fails) =>
      if op.Money?
      then (State(After(s.db, op.call, arith), Refresh(s.cache, Touched(s.db, op.call, arith), fails)),
          Sent(Answer(s.db, op.call)))
      else (s.(db := Step(s.db, op, arith)), Done)
    case ReadBalance(id, getFails, setFails) =>
      if id !in s.db.wallets then (s, Balance(Err(NotFound)))
      else if !getFails && id in s.cache then (s, Balance(Ok(s.cache[id])))
      else
        var balance := s.db.wallets[id].balance;
        (if setFails then s else s.(cache := s.cache[id := balance]), Balance(Ok(balance)))
    case Evict(id) => (s.(cache := s.cache - {id}), Done)
  }

  function Final(s: State, events: seq<Event>, arith: Arith): State
    decreases |events|
  {
    if events == [] then s
    else Serve(Final(s, events[..|events| - 1], arith), events[|events| - 1], arith).0
  }

  function ReplyAt(s: State, events: seq<Event>, i: nat, arith: Arith): Reply
    requires i < |events|
  {
    Serve(Final(s, events[..i], arith), events[i], arith).1
  }

  function Replies(s: State, events: seq<Event>, arith: Arith): seq<Reply>
    decreases |events|
  {
    if events == [] then []
    else Replies(s, events[..|events| - 1], arith)
         + [Serve(Final(s, events[..|events| - 1], arith), events[|events| - 1], arith).1]
  }

  lemma ServeNext(s: State, events: seq<Event>, event: Event, arith: Arith)
    ensures Final(s, events + [event], arith) == Serve(Final(s, events, arith), event, arith).0
    ensures Replies(s, events + [event], arith)
        == Replies(s, events, arith) + [Serve(Final(s, events, arith), event, arith).1]
  {
    assert (events + [event])[..|events|] == events;
  }

  // ---------- The cache ----------

  // A read that finds the wallet cached leaves the cache alone; one that does not puts the balance it
  // answers there, unless that fails; one of a missing wallet does neither, whatever is cached.
  lemma ReadPrimes(s: State, id: Id, getFails: bool, setFails: bool, arith: Arith)
    ensures var (after, reply) := Serve(s, ReadBalance(id, getFails, setFails), arith);
            && after.db == s.db
            && (id !in s.db.wallets ==> reply == Balance(Err(NotFound)) && after.cache == s.cache)
            && (id in s.db.wallets && id in s.cache && !getFails ==>
                  reply == Balance(Ok(s.cache[id])) && after.cache == s.cache)
            && (id in s.db.wallets && (id !in s.cache || getFails) ==>
                  reply == Balance(Ok(s.db.wallets[id].balance))
                  && after.cache == if setFails then s.cache else s.cache[id := s.db.wallets[id].balance])
  {
  }

  // Every cached value is the stored balance.
  predicate Agrees(s: State)
  {
    forall id | id in s.cache :: id in s.db.wallets && s.cache[id] == s.db.wallets[id].balance
  }

  lemma RefreshTwo(cache: map<Id, int>, a: (Id, int), b: (Id, int), fails: set<Id>)
    ensures var first := if a.0 in fails then cache else cache[a.0 := a.1];
            Refresh(cache, [a, b], fails) == if b.0 in fails then first else first[b.0 := b.1]
  {
    assert [a, b][..1] == [a];
    assert Refresh(cache, [a], fails) == if a.0 in fails then cache else cache[a.0 := a.1] by {
      assert [a][..0] == [];
      assert Refresh(cache, [], fails) == cache;
    }
  }

  // A posting leaves the cache in agreement exactly when no wallet of it whose cache write failed
  // was cached: that entry, and no other, is then out of date.
  lemma RefreshAgrees(s: State, call: Call, fails: set<Id>)
    requires Agrees(s) && Decide(s.db, call).Posts?
    requires var m := Decide(s.db, call).movement; m.source != m.destination && m.amount != 0
    ensures var m := Decide(s.db, call).movement;
            Agrees(Serve(s, Write(Money(call), fails), Unbounded).0)
            <==> (forall id | id == m.source || id == m.destination :: id in fails ==> id !in s.cache)
  {
    hide Decide;
    var m := Decide(s.db, call).movement;
    var touched := TouchedBy(s.db.wallets, m, Unbounded);
    var after := Serve(s, Write(Money(call), fails), Unbounded).0;
    RefreshTwo(s.cache, touched[0], touched[1], fails);
    hide Refresh;
    assert after.db.wallets == PostWallets(s.db.wallets, m, Unbounded);
  }

  predicate NoFailedRefresh(events: seq<Event>)
  {
    forall i | 0 <= i < |events| && events[i].Write? :: events[i].refreshFails == {}
  }

  lemma WriterKeepsAgreement(s: State, op: DbOp)
    requires Agrees(s) && !op.Money?
    ensures Agrees(s.(db := Step(s.db, op, Unbounded)))
  {
  }

  lemma ServeKeepsAgreement(s: State, event: Event)
    requires Agrees(s) && Sound(s.db)
    requires event.Write? ==> event.refreshFails == {} && Legal(s.db, event.op)
    ensures Agrees(Serve(s, event, Unbounded).0)
  {
    if event.Write? {
      hide Sound, Decide, Post, Agrees, Fresh, Movable, RelatedOk, Step, Refresh;
      if !event.op.Money? {
        WriterKeepsAgreement(s, event.op);
      } else if Decide(s.db, event.op.call).Posts? {
        AmountPosted(s.db, event.op.call);
        RefreshAgrees(s, event.op.call, {});
      } else {
        NothingToRefresh(s.cache, {});
      }
    } else {
      hide Sound;
    }
  }

  lemma NothingToRefresh(cache: map<Id, int>, fails: set<Id>)
    ensures Refresh(cache, [], fails) == cache
  {
  }

  lemma AmountPosted(db: Db, call: Call)
    requires Sound(db) && ValidRequest(call.request) && Decide(db, call).Posts?
    ensures var m := Decide(db, call).movement; m.source != m.destination && m.amount > 0
  {
    hide Sound, Decide, RelatedOk;
    PostsAreMovable(db, call, Decide(db, call).movement);
  }

  // A run of requests from the seeded service with an empty cache.
  ghost predicate LegalEvents(events: seq<Event>)
    decreases |events|
  {
    events == [] ||
    var earlier := events[..|events| - 1];
    var last := events[|events| - 1];
    LegalEvents(earlier) && (last.Write? ==> Legal(Final(State(SEEDED, map[]), earlier, Unbounded).db, last.op))
  }

  lemma {:induction false} CacheStaysTrue(events: seq<Event>)
    requires LegalEvents(events) && NoFailedRefresh(events)
    ensures var s := Final(State(SEEDED, map[]), events, Unbounded); Agrees(s) && Sound(s.db)
    decreases |events|
  {
    hide Sound, Agrees, Serve;
    if events == [] {
      SeededIsSound();
      assert Agrees(State(SEEDED, map[])) by { NoCache(); }
    } else {
      var earlier := events[..|events| - 1];
      CacheStaysTrue(earlier);
      var s, last := Final(State(SEEDED, map[]), earlier, Unbounded), events[|events| - 1];
      ServeKeepsAgreement(s, last);
      ServeKeepsSound(s, last);
    }
  }

  lemma NoCache()
    ensures Agrees(State(SEEDED, map[]))
  {
  }

  lemma ServeKeepsSound(s: State, event: Event)
    requires Sound(s.db) && (event.Write? ==> Legal(s.db, event.op))
    ensures Sound(Serve(s, event, Unbounded).0.db)
  {
    hide Sound, Legal, Refresh, Touched, Answer;
    if event.Write? { StepKeepsSound(s.db, event.op); }
  }

  // With any evictions, any failed reads and any failed primes of the cache, a balance read answers
  // the stored balance, as long as no cache write after a posting failed.
  lemma BalanceReadsAreTrue(events: seq<Event>, i: nat)
    requires LegalEvents(events) && NoFailedRefresh(events) && i < |events| && events[i].ReadBalance?
    ensures var wallets := Final(State(SEEDED, map[]), events[..i], Unbounded).db.wallets;
            var id := events[i].id;
            ReplyAt(State(SEEDED, map[]), events, i, Unbounded)
            == Balance(if id in wallets then Ok(wallets[id].balance) else Err(NotFound))
  {
    hide Sound, Final, LegalEvents;
    PrefixLegal(events, i);
    CacheStaysTrue(events[..i]);
  }

  lemma {:induction false} PrefixLegal(events: seq<Event>, i: nat)
    requires LegalEvents(events) && i <= |events|
    ensures LegalEvents(events[..i])
    decreases |events|
  {
    if i == |events| {
      assert events[..i] == events;
    } else {
      assert events[..|events| - 1][..i] == events[..i];
      PrefixLegal(events[..|events| - 1], i);
    }
  }
}
