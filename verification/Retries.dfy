// Retried requests: leaving out every repeat of a keyed request that has already succeeded changes
// neither the final state nor any other reply, and every repeat is answered like the first.
module Retries {
  import opened Wrappers
  import opened Model
  import opened Engine
  import opened Server

  // The same keyed request again; the ids the two calls would draw do not matter.
  predicate SameRequest(a: Event, b: Event)
  {
    a.Write? && a.op.Money? && b.Write? && b.op.Money?
    && a.op.call.key != "" && SlotOf(a.op.call) == SlotOf(b.op.call) && a.op.call.request == b.op.call.request
  }

  predicate Succeeded(reply: Reply) { reply.Sent? && reply.result.Ok? }

  // Event i repeats a request that event j already carried out.
  predicate Repeats(s: State, events: seq<Event>, j: nat, i: nat, arith: Arith)
    requires i < |events|
  {
    j < i && SameRequest(events[j], events[i]) && Succeeded(ReplyAt(s, events, j, arith))
  }

  predicate IsRepeat(s: State, events: seq<Event>, i: nat, arith: Arith)
    requires i < |events|
  {
    exists j | 0 <= j < i :: Repeats(s, events, j, i, arith)
  }

  // The first n events without the repeats, and the replies to them in the full run.
  function KeptEvents(s: State, events: seq<Event>, n: nat, arith: Arith): seq<Event>
    requires n <= |events|
  {
    if n == 0 then []
    else if IsRepeat(s, events, n - 1, arith) then KeptEvents(s, events, n - 1, arith)
    else KeptEvents(s, events, n - 1, arith) + [events[n - 1]]
  }

  function KeptReplies(s: State, events: seq<Event>, n: nat, arith: Arith): seq<Reply>
    requires n <= |events|
  {
    if n == 0 then []
    else if IsRepeat(s, events, n - 1, arith) then KeptReplies(s, events, n - 1, arith)
    else KeptReplies(s, events, n - 1, arith) + [ReplyAt(s, events, n - 1, arith)]
  }

  // A keyed request has been answered for good.
  predicate Settled(db: Db, call: Call, response: Response)
  {
    call.key != "" && SlotOf(call) in db.keys
    && db.keys[SlotOf(call)].request == call.request && db.keys[SlotOf(call)].response == Some(response)
  }

  lemma SuccessSettles(s: State, event: Event, arith: Arith)
    requires event.Write? && event.op.Money? && event.op.call.key != "" && Succeeded(Serve(s, event, arith).1)
    ensures Settled(Serve(s, event, arith).0.db, event.op.call, Serve(s, event, arith).1.result.value)
  {
    hide Judge, PostWallets, PostRows, EventFor, Entries, Refresh, Touched;
  }

  lemma SettledStays(s: State, event: Event, arith: Arith, call: Call, response: Response)
    requires Settled(s.db, call, response)
    ensures Settled(Serve(s, event, arith).0.db, call, response)
  {
    hide Judge, PostWallets, PostRows, EventFor, Entries, Refresh, Touched, Answer;
  }

  lemma SettledReplays(s: State, event: Event, arith: Arith, response: Response)
    requires event.Write? && event.op.Money? && Settled(s.db, event.op.call, response)
    requires !SelfTransfer(event.op.call.request)
    ensures Serve(s, event, arith) == (s, Sent(Ok(response)))
  {
    hide Judge;
  }

  lemma {:induction false} SettledLater(s: State, events: seq<Event>, j: nat, i: nat, arith: Arith)
    requires j < i <= |events|
    requires events[j].Write? && events[j].op.Money? && events[j].op.call.key != ""
    requires Succeeded(ReplyAt(s, events, j, arith))
    ensures Settled(Final(s, events[..i], arith).db, events[j].op.call, ReplyAt(s, events, j, arith).result.value)
    decreases i
  {
    hide Settled, Serve;
    assert events[..i] == events[..i - 1] + [events[i - 1]];
    ServeNext(s, events[..i - 1], events[i - 1], arith);
    if j == i - 1 {
      SuccessSettles(Final(s, events[..j], arith), events[j], arith);
    } else {
      SettledLater(s, events, j, i - 1, arith);
      SettledStays(Final(s, events[..i - 1], arith), events[i - 1], arith, events[j].op.call,
          ReplyAt(s, events, j, arith).result.value);
    }
  }

  // A repeat changes nothing and is answered exactly like the first, whatever happened between them.
  lemma RepeatAnswersFirst(s: State, events: seq<Event>, j: nat, i: nat, arith: Arith)
    requires i < |events| && Repeats(s, events, j, i, arith)
    ensures ReplyAt(s, events, i, arith) == ReplyAt(s, events, j, arith)
    ensures Final(s, events[..i + 1], arith) == Final(s, events[..i], arith)
  {
    hide Final, Serve;
    SettledLater(s, events, j, i, arith);
    if SelfTransfer(events[j].op.call.request) { SelfTransferFails(Final(s, events[..j], arith), events[j], arith); }
    SettledReplays(Final(s, events[..i], arith), events[i], arith, ReplyAt(s, events, j, arith).result.value);
    assert events[..i + 1] == events[..i] + [events[i]];
    ServeNext(s, events[..i], events[i], arith);
  }

  lemma SelfTransferFails(s: State, event: Event, arith: Arith)
    requires event.Write? && event.op.Money? && SelfTransfer(event.op.call.request)
    ensures !Succeeded(Serve(s, event, arith).1)
  {
  }

  // The run without the repeats ends in the same database and cache, with the same replies to
  // everything that was kept.
  lemma {:induction false} RepeatsErase(s: State, events: seq<Event>, n: nat, arith: Arith)
    requires n <= |events|
    ensures Final(s, KeptEvents(s, events, n, arith), arith) == Final(s, events[..n], arith)
    ensures Replies(s, KeptEvents(s, events, n, arith), arith) == KeptReplies(s, events, n, arith)
  {
    if n == 0 {
    } else {
      hide Serve, Repeats;
      RepeatsErase(s, events, n - 1, arith);
      assert events[..n] == events[..n - 1] + [events[n - 1]];
      if IsRepeat(s, events, n - 1, arith) {
        var j :| 0 <= j < n - 1 && Repeats(s, events, j, n - 1, arith);
        RepeatAnswersFirst(s, events, j, n - 1, arith);
      } else {
        ServeNext(s, events[..n - 1], events[n - 1], arith);
        ServeNext(s, KeptEvents(s, events, n - 1, arith), events[n - 1], arith);
      }
    }
  }
}
