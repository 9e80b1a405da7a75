/**
 The api table of one service as the mutable object it is (lualib/api.lua). Every method follows the statements of the
 Lua function it is named after, and its contract equates the new state with the function of Sessions that says what
 it should be.
 */
module Api {
  import opened Basics
  import opened Sessions

  lemma QueueGrows(beh: Behaviour, s: State, co: nat, cause: Cause)
    ensures |s.nextCoro| <= |Resume(beh, s, co, cause).nextCoro|
  {
    if co in s.status && !s.status[co].Dead? {
      ResumeRan(beh, s, co, cause);
    }
  }

  class Api {
    const beh: Behaviour
    var nextCoro: seq<nat>
    var callCoro: map<nat, Pending>
    var httpCoro: map<nat, nat>
    var timers: set<nat>
    var autoSessionId: nat
    // What the Lua runtime knows about coroutines, and the history the properties speak of.
    var status: map<nat, Status>
    var httpDone: set<nat>
    var nextCo: nat
    var log: seq<Event>

    function View(): State
      reads this
    {
      State(nextCoro, callCoro, httpCoro, timers, autoSessionId, status, httpDone, nextCo, log)
    }

    constructor (beh: Behaviour, boot: seq<Action>)
      ensures View() == ActAll(EMPTY, boot) && this.beh == beh
    {
      this.beh := beh;
      nextCoro, callCoro, httpCoro, timers, autoSessionId := [], map[], map[], {}, 1;
      status, httpDone, nextCo, log := map[], {}, 0, [];
      new;
      Perform(boot);
    }

    method Async()
      modifies this
      ensures View() == Spawn(old(View()))
    {
      var co := nextCo;
      nextCo := nextCo + 1;
      status := status[co := Queued];
      nextCoro := nextCoro + [co];
      log := log + [Spawned(co)];
    }

    /** The session number; `deadline` is for the history only. */
    method NewSession(deadline: Option<nat>) returns (session: nat)
      modifies this
      ensures session == old(autoSessionId) && View() == Issue(old(View()), deadline)
    {
      session := autoSessionId;
      autoSessionId := autoSessionId + 1;
      log := log + [Issued(session, deadline)];
    }

    /** What running Lua code does before it waits or returns. */
    method Perform(actions: seq<Action>)
      modifies this
      ensures View() == ActAll(old(View()), actions)
    {
      for i := 0 to |actions|
        invariant ActAll(View(), actions[i..]) == ActAll(old(View()), actions)
      {
        assert actions[i..][1..] == actions[i + 1..];
        match actions[i]
        case Async => Async();
        case Timer =>
          var session := NewSession(None);
          timers := timers + {session};
        case HttpFailed =>
          var _ := NewSession(None);
      }
    }

    /** api.call: a fresh session, remembered with the caller and its deadline, until the yield. */
    method Call(co: nat, deadline: nat)
      modifies this
      ensures View() == Suspend(old(View()), co, Stop.Call(deadline))
    {
      var session := NewSession(Some(deadline));
      callCoro := callCoro[session := Pending(co, deadline)];
      status := status[co := InCall(session)];
    }

    /** http.get and http.post, once the client has accepted the request. */
    method Get(co: nat)
      modifies this
      ensures View() == Suspend(old(View()), co, HttpGet)
    {
      var session := NewSession(None);
      httpCoro := httpCoro[session := co];
      status := status[co := InHttp(session)];
    }

    /** coroutine.resume: the coroutine runs until it waits again or ends. */
    method ResumeCo(co: nat, cause: Cause)
      modifies this
      ensures View() == Resume(beh, old(View()), co, cause)
    {
      if co !in status || status[co].Dead? {
        return;
      }
      log := log + [Resumed(co, cause, status[co])];
      var script := beh(log, co);
      Perform(script.actions);
      match script.stop
      case Call(deadline) => Call(co, deadline);
      case HttpGet => Get(co);
      case Finish => status := status[co := Dead];
    }

    method RunHandler(m: Msg)
      modifies this
      ensures View() == Handle(beh, old(View()), m)
    {
      log := log + [Handled(m)];
      Perform(beh(log, 0).actions);
    }

    /** The first loop of onPoll: entries leave the list from its end while resumed coroutines append to it. */
    method RunNext()
      modifies this
      ensures View() == RunPending(beh, old(View()), |old(nextCoro)|)
    {
      var i := |nextCoro|;
      while i > 0
        invariant 0 <= i <= |nextCoro|
        invariant RunPending(beh, View(), i) == RunPending(beh, old(View()), |old(nextCoro)|)
      {
        var co := nextCoro[i - 1];
        nextCoro := nextCoro[..i - 1] + nextCoro[i..];
        QueueGrows(beh, View(), co, First);
        ResumeCo(co, First);
        i := i - 1;
      }
    }

    /** The second loop, over the keys that the traversal of callCoro comes to. */
    method RunTimeouts(now: nat, order: seq<nat>)
      modifies this
      ensures View() == Expire(beh, old(View()), now, order)
    {
      for i := 0 to |order|
        invariant Expire(beh, View(), now, order[i..]) == Expire(beh, old(View()), now, order)
      {
        var k := order[i];
        assert order[i..][1..] == order[i + 1..];
        if k in callCoro && now > callCoro[k].time {
          ResumeCo(callCoro[k].co, Timeout(k));
          callCoro := callCoro - {k};
        }
      }
    }

    /** The third loop; `complete` is false when a response nobody waits for made onPoll return. */
    method RunMessages(msgs: seq<Msg>) returns (complete: bool, isExit: bool)
      modifies this
      ensures (View(), complete) == DeliverAll(beh, old(View()), msgs)
      ensures complete ==> isExit == (Close in msgs)
    {
      isExit := false;
      for i := 0 to |msgs|
        invariant DeliverAll(beh, View(), msgs[i..]) == DeliverAll(beh, old(View()), msgs)
        invariant isExit == (Close in msgs[..i])
      {
        var it := msgs[i];
        assert msgs[i..][1..] == msgs[i + 1..] && msgs[..i + 1] == msgs[..i] + [it];
        match it
        case Close => isExit := true;
        case TimerMsg(session) =>
          if session in timers {
            RunHandler(it);
          }
        case HttpMsg(session) =>
          if session in httpCoro {
            httpDone := httpDone + {session};
            ResumeCo(httpCoro[session], HttpReply(session));
          }
        case Socket => RunHandler(it);
        case Request => RunHandler(it);
        case Response(session) =>
          if session !in callCoro {
            complete := false;
            return;
          }
          var info := callCoro[session];
          callCoro := callCoro - {session};
          ResumeCo(info.co, Answer(session));
      }
      assert msgs[..|msgs|] == msgs;
      complete := true;
    }

    method OnPoll(now: nat, order: seq<nat>, msgs: seq<Msg>)
      modifies this
      ensures View() == Sessions.OnPoll(beh, old(View()), now, order, msgs)
    {
      RunNext();
      RunTimeouts(now, order);
      var complete, isExit := RunMessages(msgs);
      if complete && isExit {
        Async();
      }
    }
  }
}
