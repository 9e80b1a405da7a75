/**
 Sessions and coroutines of one service (lualib/api.lua, lualib/net/http.lua). `onPoll` resumes the coroutines
 created by api.async, then the calls that timed out, then handles the batch of messages. What a coroutine or a
 handler does while it runs is chosen by an arbitrary function `beh` of everything that has happened so far.
 The specification is a set of functions on State; class Api runs the same loops on mutable fields.
 */
module Sessions {
  import opened Basics

  /** What a coroutine waits for; Dead when it has finished. */
  datatype Status = Queued | InCall(session: nat) | InHttp(session: nat) | Dead

  datatype Cause = First | Answer(session: nat) | Timeout(session: nat) | HttpReply(session: nat)

  /** Things a coroutine or handler does without waiting: api.async, api.timer, an http.get that could not start. */
  datatype Action = Async | Timer | HttpFailed

  /** How a coroutine's run ends: api.call (its entry expires at `deadline`), http.get, or the end of its function. */
  datatype Stop = Call(deadline: nat) | HttpGet | Finish

  datatype Script = Script(actions: seq<Action>, stop: Stop)

  /** `deadline` is that of a call; sessions of timers and HTTP requests have none. */
  datatype Event =
    | Resumed(co: nat, cause: Cause, was: Status)
    | Handled(msg: Msg)
    | Spawned(co: nat)
    | Issued(session: nat, deadline: Option<nat>)

  type Behaviour = (seq<Event>, nat) -> Script

  datatype Pending = Pending(co: nat, time: nat)

  /** `status`, `httpDone` and `log` record history; the other fields are those of the api table. */
  datatype State = State(
    nextCoro: seq<nat>,
    callCoro: map<nat, Pending>,
    httpCoro: map<nat, nat>,
    timers: set<nat>,
    autoSessionId: nat,
    status: map<nat, Status>,
    httpDone: set<nat>,
    nextCo: nat,
    log: seq<Event>)

  datatype Msg = Close | TimerMsg(session: nat) | HttpMsg(session: nat) | Socket | Request | Response(session: nat)

  // ---------------------------------------------------------------- running a coroutine or a handler

  function Spawn(s: State): State {
    s.(nextCoro := s.nextCoro + [s.nextCo], status := s.status[s.nextCo := Queued], nextCo := s.nextCo + 1,
       log := s.log + [Spawned(s.nextCo)])
  }

  function Issue(s: State, deadline: Option<nat>): State {
    s.(autoSessionId := s.autoSessionId + 1, log := s.log + [Issued(s.autoSessionId, deadline)])
  }

  function Act(s: State, a: Action): State {
    match a
    case Async => Spawn(s)
    case Timer => Issue(s, None).(timers := s.timers + {s.autoSessionId})
    case HttpFailed => Issue(s, None)
  }

  function ActAll(s: State, actions: seq<Action>): State
    decreases |actions|
  {
    if actions == [] then s else ActAll(Act(s, actions[0]), actions[1..])
  }

  function Suspend(s: State, co: nat, stop: Stop): State {
    match stop
    case Call(deadline) =>
      Issue(s, Some(deadline)).(callCoro := s.callCoro[s.autoSessionId := Pending(co, deadline)],
                                status := s.status[co := InCall(s.autoSessionId)])
    case HttpGet =>
      Issue(s, None).(httpCoro := s.httpCoro[s.autoSessionId := co], status := s.status[co := InHttp(s.autoSessionId)])
    case Finish => s.(status := s.status[co := Dead])
  }

  /** coroutine.resume; resuming a dead coroutine only reports an error. */
  function Resume(beh: Behaviour, s: State, co: nat, cause: Cause): State {
    if co !in s.status || s.status[co].Dead? then s
    else
      var s1 := s.(log := s.log + [Resumed(co, cause, s.status[co])]);
      var script := beh(s1.log, co);
      Suspend(ActAll(s1, script.actions), co, script.stop)
  }

  /** A timer function, a registered handler or a socket callback: runs on the main thread and cannot wait. */
  function Handle(beh: Behaviour, s: State, m: Msg): State {
    var s1 := s.(log := s.log + [Handled(m)]);
    ActAll(s1, beh(s1.log, 0).actions)
  }

  // ---------------------------------------------------------------- onPoll

  function Drop(q: seq<nat>, i: nat): seq<nat>
    requires i < |q|
  {
    q[..i] + q[i + 1..]
  }

  /** The backward loop over nextCoro, about to look at index `i`. */
  function RunPending(beh: Behaviour, s: State, i: nat): State
    decreases i
  {
    if i == 0 || i > |s.nextCoro| then s
    else
      var co := s.nextCoro[i - 1];
      RunPending(beh, Resume(beh, s.(nextCoro := Drop(s.nextCoro, i - 1)), co, First), i - 1)
  }

  /**
   The timeout loop. Calls made by resumed coroutines add keys to the table being walked, so Lua may visit its keys
   in any order, skip new ones or come back to old ones: `order` is whatever was visited.
   */
  function Expire(beh: Behaviour, s: State, now: nat, order: seq<nat>): State
    decreases |order|
  {
    if order == [] then s
    else
      var k := order[0];
      var s1 := if k in s.callCoro && now > s.callCoro[k].time
                then var s2 := Resume(beh, s, s.callCoro[k].co, Timeout(k)); s2.(callCoro := s2.callCoro - {k})
                else s;
      Expire(beh, s1, now, order[1..])
  }

  /** A response nobody waits for makes onPoll return at once. */
  predicate Unmatched(s: State, m: Msg) {
    m.Response? && m.session !in s.callCoro
  }

  function Deliver(beh: Behaviour, s: State, m: Msg): State {
    match m
    case Close => s
    case TimerMsg(session) => if session in s.timers then Handle(beh, s, m) else s
    case HttpMsg(session) =>
      if session in s.httpCoro
      then Resume(beh, s.(httpDone := s.httpDone + {session}), s.httpCoro[session], HttpReply(session)) else s
    case Socket => Handle(beh, s, m)
    case Request => Handle(beh, s, m)
    case Response(session) =>
      if session in s.callCoro
      then Resume(beh, s.(callCoro := s.callCoro - {session}), s.callCoro[session].co, Answer(session)) else s
  }

  /** The message loop; the flag tells whether it came to its end. */
  function DeliverAll(beh: Behaviour, s: State, msgs: seq<Msg>): (State, bool)
    decreases |msgs|
  {
    if msgs == [] then (s, true)
    else if Unmatched(s, msgs[0]) then (s, false)
    else DeliverAll(beh, Deliver(beh, s, msgs[0]), msgs[1..])
  }

  /** A Close message makes the service queue its shutdown, unless the batch was abandoned. */
  function OnPoll(beh: Behaviour, s: State, now: nat, order: seq<nat>, msgs: seq<Msg>): State {
    var (s1, complete) := DeliverAll(beh, Expire(beh, RunPending(beh, s, |s.nextCoro|), now, order), msgs);
    if complete && Close in msgs then Spawn(s1) else s1
  }

  // ---------------------------------------------------------------- the invariant

  ghost predicate Matches(cause: Cause, was: Status) {
    match cause
    case First => was.Queued?
    case Answer(k) => was == InCall(k)
    case Timeout(k) => was == InCall(k)
    case HttpReply(k) => was == InHttp(k)
  }

  /** The session whose wait the event ended. */
  ghost predicate Ends(e: Event, k: nat) {
    e.Resumed? && (e.cause == Answer(k) || e.cause == Timeout(k) || e.cause == HttpReply(k))
  }

  /** The log: every resumption ended the very wait the coroutine was in, and no wait was ended twice. */
  ghost predicate GoodLog(log: seq<Event>, auto: nat) {
    && (forall i :: 0 <= i < |log| && log[i].Resumed? ==> Matches(log[i].cause, log[i].was))
    && (forall i, j, k :: 0 <= i < j < |log| && Ends(log[i], k) ==> !Ends(log[j], k))
    && (forall i, k: nat :: 0 <= i < |log| && Ends(log[i], k) ==> k < auto)
    && (forall i :: 0 <= i < |log| && log[i].Issued? ==> log[i].session < auto)
    && (forall i, j :: 0 <= i < j < |log| && log[i].Issued? && log[j].Issued? ==> log[i].session < log[j].session)
  }

  ghost predicate Ended(log: seq<Event>, k: nat) {
    exists i :: 0 <= i < |log| && Ends(log[i], k)
  }

  /** Coroutine `co` waits for session `k`, which is still open. */
  ghost predicate Waits(s: State, co: nat, k: nat, status: Status) {
    co in s.status && s.status[co] == status && k < s.autoSessionId && !Ended(s.log, k)
  }

  /** Whoever waits is found where its wake-up will look for it. */
  ghost predicate Reachable(s: State, calls: map<nat, Pending>, co: nat)
    requires co in s.status
  {
    match s.status[co]
    case Queued => co in s.nextCoro
    case InCall(k) => k in calls && calls[k].co == co
    case InHttp(k) => k in s.httpCoro && s.httpCoro[k] == co && k !in s.httpDone
    case Dead => true
  }

  /** Tables and statuses agree, with `calls` for api.callCoro; no table mentions `busy`, the running coroutine. */
  ghost predicate Tables(s: State, calls: map<nat, Pending>, busy: Option<nat>) {
    && (forall k :: k in calls ==> Some(calls[k].co) != busy && Waits(s, calls[k].co, k, InCall(k)) && k !in s.httpCoro)
    && (forall k :: k in s.httpCoro ==> k < s.autoSessionId && s.httpCoro[k] in s.status)
    && (forall co :: co in s.status && Some(co) != busy ==> Reachable(s, calls, co))
    && (forall k :: k in s.httpCoro && k !in s.httpDone ==>
        Some(s.httpCoro[k]) != busy && Waits(s, s.httpCoro[k], k, InHttp(k)))
    && (forall i :: 0 <= i < |s.nextCoro| ==>
          Some(s.nextCoro[i]) != busy && s.nextCoro[i] in s.status && s.status[s.nextCoro[i]].Queued?)
    && Distinct(s.nextCoro)
    && (forall co :: co in s.status ==> co < s.nextCo)
    && (forall k :: k in s.httpDone ==> k < s.autoSessionId)
    && s.autoSessionId > 0
  }

  ghost predicate Inv(s: State) {
    Tables(s, s.callCoro, None) && GoodLog(s.log, s.autoSessionId)
  }

  // ---------------------------------------------------------------- preservation

  lemma LogGrows(log: seq<Event>, auto: nat, e: Event, auto': nat)
    requires GoodLog(log, auto) && auto <= auto'
    requires e.Resumed? ==> Matches(e.cause, e.was) && forall k: nat :: Ends(e, k) ==> !Ended(log, k) && k < auto
    requires e.Issued? ==> e.session == auto && auto' > auto
    ensures GoodLog(log + [e], auto')
    ensures forall k: nat :: Ended(log + [e], k) <==> Ended(log, k) || Ends(e, k)
  {
    var log' := log + [e];
    forall i, j, k: nat | 0 <= i < j < |log'| && Ends(log'[i], k) ensures !Ends(log'[j], k) {
      if j == |log| {
        assert Ended(log, k);
      }
    }
    forall k: nat ensures Ended(log', k) <==> Ended(log, k) || Ends(e, k) {
      if Ended(log, k) {
        var i :| 0 <= i < |log| && Ends(log[i], k);
        assert Ends(log'[i], k);
      }
      if Ends(e, k) {
        assert Ends(log'[|log|], k);
      }
    }
  }

  lemma SpawnTables(s: State, log: seq<Event>, calls: map<nat, Pending>, busy: Option<nat>)
    requires Tables(s, calls, busy) && (busy.Some? ==> busy.value < s.nextCo)
    requires forall k: nat :: Ended(log, k) <==> Ended(s.log, k)
    ensures Tables(s.(nextCoro := s.nextCoro + [s.nextCo], status := s.status[s.nextCo := Queued],
                      nextCo := s.nextCo + 1, log := log), calls, busy)
  {
    hide Ended;
  }

  lemma SpawnKeeps(s: State, calls: map<nat, Pending>, busy: Option<nat>)
    requires Tables(s, calls, busy) && GoodLog(s.log, s.autoSessionId) && (busy.Some? ==> busy.value < s.nextCo)
    ensures Tables(Spawn(s), calls, busy) && GoodLog(Spawn(s).log, s.autoSessionId)
  {
    hide GoodLog, Ended, Tables;
    LogGrows(s.log, s.autoSessionId, Spawned(s.nextCo), s.autoSessionId);
    SpawnTables(s, s.log + [Spawned(s.nextCo)], calls, busy);
  }

  lemma IssueKeeps(s: State, deadline: Option<nat>, calls: map<nat, Pending>, busy: Option<nat>)
    requires Tables(s, calls, busy) && GoodLog(s.log, s.autoSessionId)
    ensures var s' := Issue(s, deadline);
            && Tables(s', calls, busy) && GoodLog(s'.log, s'.autoSessionId)
            && Ended(s.log, s.autoSessionId) == Ended(s'.log, s.autoSessionId)
  {
    hide GoodLog, Ended;
    LogGrows(s.log, s.autoSessionId, Issued(s.autoSessionId, deadline), s.autoSessionId + 1);
  }

  lemma TimersFree(s: State, calls: map<nat, Pending>, busy: Option<nat>, timers: set<nat>)
    requires Tables(s, calls, busy)
    ensures Tables(s.(timers := timers), calls, busy)
  {
    hide Ended;
  }

  lemma ActKeeps(s: State, calls: map<nat, Pending>, busy: Option<nat>, a: Action)
    requires Tables(s, calls, busy) && GoodLog(s.log, s.autoSessionId) && (busy.Some? ==> busy.value < s.nextCo)
    ensures Tables(Act(s, a), calls, busy) && GoodLog(Act(s, a).log, Act(s, a).autoSessionId)
  {
    hide GoodLog, Tables;
    match a
    case Async => SpawnKeeps(s, calls, busy);
    case Timer =>
      IssueKeeps(s, None, calls, busy);
      TimersFree(Issue(s, None), calls, busy, s.timers + {s.autoSessionId});
    case HttpFailed => IssueKeeps(s, None, calls, busy);
  }

  lemma {:induction false} ActAllKeeps(s: State, calls: map<nat, Pending>, busy: Option<nat>, actions: seq<Action>)
    requires Tables(s, calls, busy) && GoodLog(s.log, s.autoSessionId) && (busy.Some? ==> busy.value < s.nextCo)
    ensures var s' := ActAll(s, actions);
            && Tables(s', calls, busy) && GoodLog(s'.log, s'.autoSessionId) && s'.callCoro == s.callCoro
            && s.autoSessionId <= s'.autoSessionId && s.nextCo <= s'.nextCo && s'.httpDone == s.httpDone
            && (busy.Some? && busy.value in s.status ==>
              busy.value in s'.status && s'.status[busy.value] == s.status[busy.value])
    decreases |actions|
  {
    hide Tables, GoodLog, Act;
    if actions != [] {
      var s1 := Act(s, actions[0]);
      ActKeeps(s, calls, busy, actions[0]);
      ActFrame(s, busy, actions[0]);
      ActAllKeeps(s1, calls, busy, actions[1..]);
    }
  }

  lemma ActFrame(s: State, busy: Option<nat>, a: Action)
    requires busy.Some? ==> busy.value < s.nextCo
    ensures var s' := Act(s, a);
            && s'.callCoro == s.callCoro && s'.httpDone == s.httpDone
            && s.autoSessionId <= s'.autoSessionId && s.nextCo <= s'.nextCo
            && (busy.Some? && busy.value in s.status ==>
              busy.value in s'.status && s'.status[busy.value] == s.status[busy.value])
  {
  }

  lemma EnterCall(s: State, calls: map<nat, Pending>, co: nat, k: nat, p: Pending)
    requires Tables(s, calls, Some(co)) && co in s.status && k < s.autoSessionId && p.co == co
    requires k !in calls && k !in s.httpCoro && !Ended(s.log, k)
    ensures Tables(s.(callCoro := s.callCoro[k := p], status := s.status[co := InCall(k)]), calls[k := p], None)
  {
    hide Ended;
  }

  lemma EnterHttp(s: State, calls: map<nat, Pending>, co: nat, k: nat)
    requires Tables(s, calls, Some(co)) && co in s.status && k < s.autoSessionId
    requires k !in calls && k !in s.httpCoro && k !in s.httpDone && !Ended(s.log, k)
    ensures Tables(s.(httpCoro := s.httpCoro[k := co], status := s.status[co := InHttp(k)]), calls, None)
  {
    hide Ended;
  }

  lemma Finished(s: State, calls: map<nat, Pending>, co: nat)
    requires Tables(s, calls, Some(co)) && co in s.status
    ensures Tables(s.(status := s.status[co := Dead]), calls, None)
  {
    hide Ended;
  }

  lemma FreshSession(s: State, deadline: Option<nat>, calls: map<nat, Pending>, busy: Option<nat>)
    requires Tables(s, calls, busy) && GoodLog(s.log, s.autoSessionId)
    ensures !Ended(Issue(s, deadline).log, s.autoSessionId)
    ensures s.autoSessionId !in calls && s.autoSessionId !in s.httpCoro && s.autoSessionId !in s.httpDone
  {
    IssueKeeps(s, deadline, calls, busy);
  }

  function DeadlineOf(stop: Stop): Option<nat> {
    if stop.Call? then Some(stop.deadline) else None
  }

  /** A coroutine that stops running enters at most one table, under a session never used before. */
  lemma SuspendKeeps(s: State, calls: map<nat, Pending>, co: nat, stop: Stop)
    requires Tables(s, calls, Some(co)) && GoodLog(s.log, s.autoSessionId) && co in s.status
    ensures var s' := Suspend(s, co, stop);
            && GoodLog(s'.log, s'.autoSessionId) && s.autoSessionId <= s'.autoSessionId && s'.httpDone == s.httpDone
            && Tables(s', if stop.Call? then calls[s.autoSessionId := Pending(co, stop.deadline)] else calls, None)
  {
    var s1 := Issue(s, DeadlineOf(stop));
    FreshSession(s, DeadlineOf(stop), calls, Some(co));
    hide GoodLog, Ended, Tables;
    IssueKeeps(s, DeadlineOf(stop), calls, Some(co));
    match stop
    case Call(deadline) => EnterCall(s1, calls, co, s.autoSessionId, Pending(co, deadline));
    case HttpGet => EnterHttp(s1, calls, co, s.autoSessionId);
    case Finish => Finished(s, calls, co);
  }

  /** A coroutine leaves the table it waited in and is resumed for that reason. */
  ghost predicate Due(s: State, calls: map<nat, Pending>, co: nat, cause: Cause) {
    && Tables(s, calls, Some(co)) && GoodLog(s.log, s.autoSessionId)
    && co in s.status && Matches(cause, s.status[co])
    && (forall k: nat :: Ends(Resumed(co, cause, s.status[co]), k) ==>
          && !Ended(s.log, k) && k < s.autoSessionId && k !in calls && (k in s.httpCoro ==> k in s.httpDone))
  }

  lemma NoteKeeps(s: State, calls: map<nat, Pending>, co: nat, cause: Cause)
    requires Due(s, calls, co, cause)
    ensures var s1 := s.(log := s.log + [Resumed(co, cause, s.status[co])]);
            Tables(s1, calls, Some(co)) && GoodLog(s1.log, s1.autoSessionId)
  {
    hide GoodLog, Ended, Matches;
    LogGrows(s.log, s.autoSessionId, Resumed(co, cause, s.status[co]), s.autoSessionId);
    hide Ends;
  }

  lemma ResumeKeeps(beh: Behaviour, s: State, stale: set<nat>, co: nat, cause: Cause)
    requires Due(s, s.callCoro - stale, co, cause) && forall k :: k in stale ==> k < s.autoSessionId
    ensures var s' := Resume(beh, s, co, cause);
            && Tables(s', s'.callCoro - stale, None) && GoodLog(s'.log, s'.autoSessionId)
            && s.autoSessionId <= s'.autoSessionId && s'.httpDone == s.httpDone
  {
    var calls := s.callCoro - stale;
    assert co < s.nextCo && !s.status[co].Dead?;
    var s1 := s.(log := s.log + [Resumed(co, cause, s.status[co])]);
    var script := beh(s1.log, co);
    NoteKeeps(s, calls, co, cause);
    hide Tables, GoodLog, Due;
    ActAllKeeps(s1, calls, Some(co), script.actions);
    var s2 := ActAll(s1, script.actions);
    SuspendKeeps(s2, calls, co, script.stop);
    var s3 := Suspend(s2, co, script.stop);
    if script.stop.Call? {
      var p := Pending(co, script.stop.deadline);
      assert s2.callCoro[s2.autoSessionId := p] - stale == calls[s2.autoSessionId := p];
    }
  }

  lemma HandleKeeps(beh: Behaviour, s: State, m: Msg)
    requires Inv(s)
    ensures Inv(Handle(beh, s, m)) && Handle(beh, s, m).httpDone == s.httpDone
  {
    var s1 := s.(log := s.log + [Handled(m)]);
    assert Tables(s1, s1.callCoro, None) && GoodLog(s1.log, s1.autoSessionId) by {
      hide GoodLog, Ended;
      LogGrows(s.log, s.autoSessionId, Handled(m), s.autoSessionId);
    }
    hide Tables, GoodLog;
    ActAllKeeps(s1, s1.callCoro, None, beh(s1.log, 0).actions);
  }

  // ---------------------------------------------------------------- the three loops of onPoll

  lemma PendingDue(s: State, i: nat)
    requires Inv(s) && 0 < i <= |s.nextCoro|
    ensures Due(s.(nextCoro := Drop(s.nextCoro, i - 1)), s.callCoro, s.nextCoro[i - 1], First)
  {
    var co, rest := s.nextCoro[i - 1], Drop(s.nextCoro, i - 1);
    hide GoodLog, Ended;
    assert forall j :: 0 <= j < |rest| ==> rest[j] == s.nextCoro[if j < i - 1 then j else j + 1];
  }

  lemma {:induction false} RunPendingKeeps(beh: Behaviour, s: State, i: nat)
    requires Inv(s)
    ensures Inv(RunPending(beh, s, i)) && RunPending(beh, s, i).httpDone == s.httpDone
    decreases i
  {
    if 0 < i <= |s.nextCoro| {
      PendingDue(s, i);
      hide Tables, GoodLog, Due;
      var s1 := s.(nextCoro := Drop(s.nextCoro, i - 1));
      assert s1.callCoro - {} == s1.callCoro;
      ResumeKeeps(beh, s1, {}, s.nextCoro[i - 1], First);
      var s2 := Resume(beh, s1, s.nextCoro[i - 1], First);
      assert s2.callCoro - {} == s2.callCoro;
      hide Resume;
      RunPendingKeeps(beh, s2, i - 1);
    }
  }

  lemma CallDue(s: State, k: nat, cause: Cause)
    requires Inv(s) && k in s.callCoro && (cause == Timeout(k) || cause == Answer(k))
    ensures Due(s, s.callCoro - {k}, s.callCoro[k].co, cause) && k < s.autoSessionId
  {
    hide GoodLog, Ended;
  }

  lemma EntryGone(s: State, k: nat)
    requires Tables(s, s.callCoro - {k}, None)
    ensures Tables(s.(callCoro := s.callCoro - {k}), s.callCoro - {k}, None)
  {
    hide Ended;
  }

  lemma ExpireOne(beh: Behaviour, s: State, k: nat)
    requires Inv(s) && k in s.callCoro
    ensures var s2 := Resume(beh, s, s.callCoro[k].co, Timeout(k));
            Inv(s2.(callCoro := s2.callCoro - {k})) && s2.httpDone == s.httpDone
  {
    hide Due, Tables, GoodLog, Resume;
    CallDue(s, k, Timeout(k));
    ResumeKeeps(beh, s, {k}, s.callCoro[k].co, Timeout(k));
    EntryGone(Resume(beh, s, s.callCoro[k].co, Timeout(k)), k);
  }

  lemma {:induction false} ExpireKeeps(beh: Behaviour, s: State, now: nat, order: seq<nat>)
    requires Inv(s)
    ensures Inv(Expire(beh, s, now, order)) && Expire(beh, s, now, order).httpDone == s.httpDone
    decreases |order|
  {
    hide Inv, Resume;
    if order != [] {
      var k := order[0];
      if k in s.callCoro && now > s.callCoro[k].time {
        ExpireOne(beh, s, k);
        var s2 := Resume(beh, s, s.callCoro[k].co, Timeout(k));
        ExpireKeeps(beh, s2.(callCoro := s2.callCoro - {k}), now, order[1..]);
      } else {
        ExpireKeeps(beh, s, now, order[1..]);
      }
    }
  }

  lemma ResponseDue(s: State, k: nat)
    requires Inv(s) && k in s.callCoro
    ensures Due(s.(callCoro := s.callCoro - {k}), s.callCoro - {k} - {}, s.callCoro[k].co, Answer(k))
  {
    CallDue(s, k, Answer(k));
    assert s.callCoro - {k} - {} == s.callCoro - {k};
    hide GoodLog, Ended, Matches, Inv;
  }

  lemma ResponseKeeps(beh: Behaviour, s: State, k: nat)
    requires Inv(s) && k in s.callCoro
    ensures var s' := Resume(beh, s.(callCoro := s.callCoro - {k}), s.callCoro[k].co, Answer(k));
            Inv(s') && s'.httpDone == s.httpDone
  {
    hide Due, GoodLog, Tables, Resume;
    ResponseDue(s, k);
    var s1 := s.(callCoro := s.callCoro - {k});
    ResumeKeeps(beh, s1, {}, s.callCoro[k].co, Answer(k));
    var s2 := Resume(beh, s1, s.callCoro[k].co, Answer(k));
    assert s2.callCoro - {} == s2.callCoro;
  }

  lemma HttpDue(s: State, k: nat)
    requires Inv(s) && k in s.httpCoro && k !in s.httpDone
    ensures Due(s.(httpDone := s.httpDone + {k}), s.callCoro, s.httpCoro[k], HttpReply(k))
  {
    hide GoodLog, Ended;
  }

  lemma HttpKeeps(beh: Behaviour, s: State, k: nat)
    requires Inv(s) && k in s.httpCoro && k !in s.httpDone
    ensures var s' := Resume(beh, s.(httpDone := s.httpDone + {k}), s.httpCoro[k], HttpReply(k));
            Inv(s') && s'.httpDone == s.httpDone + {k}
  {
    HttpDue(s, k);
    hide Due, GoodLog, Tables;
    var s1 := s.(httpDone := s.httpDone + {k});
    assert s1.callCoro - {} == s1.callCoro;
    ResumeKeeps(beh, s1, {}, s.httpCoro[k], HttpReply(k));
    var s2 := Resume(beh, s1, s.httpCoro[k], HttpReply(k));
    assert s2.callCoro - {} == s2.callCoro;
    hide Resume;
  }

  /** Each HTTP session is answered at most once: no reply in the batch repeats an earlier one. */
  ghost predicate FreshReplies(done: set<nat>, msgs: seq<Msg>) {
    && (forall i :: 0 <= i < |msgs| && msgs[i].HttpMsg? ==> msgs[i].session !in done)
    && (forall i, j :: 0 <= i < j < |msgs| && msgs[i].HttpMsg? && msgs[j].HttpMsg? ==>
        msgs[i].session != msgs[j].session)
  }

  lemma DeliverKeeps(beh: Behaviour, s: State, m: Msg)
    requires Inv(s) && (m.HttpMsg? ==> m.session !in s.httpDone)
    ensures Inv(Deliver(beh, s, m))
    ensures Deliver(beh, s, m).httpDone == s.httpDone + if m.HttpMsg?
        && m.session in s.httpCoro then {m.session} else {}
  {
    hide Inv, Resume, Handle;
    match m
    case Close =>
    case TimerMsg(session) => HandleKeeps(beh, s, m);
    case HttpMsg(session) =>
      if session in s.httpCoro {
        HttpKeeps(beh, s, session);
      }
    case Socket => HandleKeeps(beh, s, m);
    case Request => HandleKeeps(beh, s, m);
    case Response(session) =>
      if session in s.callCoro {
        ResponseKeeps(beh, s, session);
      }
  }

  lemma {:induction false} DeliverAllKeeps(beh: Behaviour, s: State, msgs: seq<Msg>)
    requires Inv(s) && FreshReplies(s.httpDone, msgs)
    ensures Inv(DeliverAll(beh, s, msgs).0)
    decreases |msgs|
  {
    hide Inv, Deliver;
    if msgs != [] && !Unmatched(s, msgs[0]) {
      DeliverKeeps(beh, s, msgs[0]);
      var s1 := Deliver(beh, s, msgs[0]);
      assert FreshReplies(s1.httpDone, msgs[1..]);
      DeliverAllKeeps(beh, s1, msgs[1..]);
    }
  }

  lemma OnPollKeeps(beh: Behaviour, s: State, now: nat, order: seq<nat>, msgs: seq<Msg>)
    requires Inv(s) && FreshReplies(s.httpDone, msgs)
    ensures Inv(OnPoll(beh, s, now, order, msgs))
  {
    hide Inv, FreshReplies;
    RunPendingKeeps(beh, s, |s.nextCoro|);
    var s1 := RunPending(beh, s, |s.nextCoro|);
    ExpireKeeps(beh, s1, now, order);
    var s2 := Expire(beh, s1, now, order);
    DeliverAllKeeps(beh, s2, msgs);
    var s3 := DeliverAll(beh, s2, msgs).0;
    SpawnInv(s3);
  }

  lemma SpawnInv(s: State)
    requires Inv(s)
    ensures Inv(Spawn(s))
  {
    hide Tables, GoodLog;
    SpawnKeeps(s, s.callCoro, None);
  }

  // ---------------------------------------------------------------- whole runs

  /** One call of onPoll: the clock, the keys the timeout loop visits, and the batch. */
  datatype Poll = Poll(now: nat, order: seq<nat>, msgs: seq<Msg>)

  const EMPTY := State([], map[], map[], {}, 1, map[], {}, 0, [])

  /** A service starts by running its script, which may create coroutines and timers. */
  ghost predicate IsRun(beh: Behaviour, boot: seq<Action>, states: seq<State>, polls: seq<Poll>) {
    && |states| == |polls| + 1 && states[0] == ActAll(EMPTY, boot)
    && forall i :: 0 <= i < |polls| ==>
         && FreshReplies(states[i].httpDone, polls[i].msgs)
         && states[i + 1] == OnPoll(beh, states[i], polls[i].now, polls[i].order, polls[i].msgs)
  }

  lemma {:induction false} RunKeeps(beh: Behaviour, boot: seq<Action>, states: seq<State>, polls: seq<Poll>, i: nat)
    requires IsRun(beh, boot, states, polls) && i < |states|
    ensures Inv(states[i])
    decreases i
  {
    if i == 0 {
      ActAllKeeps(EMPTY, map[], None, boot);
    } else {
      RunKeeps(beh, boot, states, polls, i - 1);
      hide Inv, OnPoll, FreshReplies;
      var p := polls[i - 1];
      OnPollKeeps(beh, states[i - 1], p.now, p.order, p.msgs);
    }
  }

  /**
   Session discipline. In any run, with late, duplicated and never-sent call responses: no session number is issued
   twice; a coroutine suspended in api.call on session `k` is resumed only by the response to `k` or by its timeout;
   and at most one resumption ever ends the wait for a session.
   */
  lemma SessionDiscipline(beh: Behaviour, boot: seq<Action>, states: seq<State>, polls: seq<Poll>, i: nat)
    requires IsRun(beh, boot, states, polls) && i < |states|
    ensures var log := states[i].log;
            && (forall a, b :: 0 <= a < b < |log| && log[a].Issued? && log[b].Issued? ==>
                log[a].session < log[b].session)
            && (forall a :: 0 <= a < |log| && log[a].Resumed? && log[a].was.InCall? ==>
                  log[a].cause == Answer(log[a].was.session) || log[a].cause == Timeout(log[a].was.session))
            && (forall a, b, k: nat :: 0 <= a < b < |log| && Ends(log[a], k) ==> !Ends(log[b], k))
  {
    RunKeeps(beh, boot, states, polls, i);
    hide Tables, IsRun;
    var log := states[i].log;
    forall a | 0 <= a < |log| && log[a].Resumed? && log[a].was.InCall?
      ensures log[a].cause == Answer(log[a].was.session) || log[a].cause == Timeout(log[a].was.session)
    {
      assert Matches(log[a].cause, log[a].was);
    }
  }

  /** Nobody is forgotten: whoever waits in api.call is in the table under its session, until it is resumed. */
  lemma NobodyForgotten(beh: Behaviour, boot: seq<Action>, states: seq<State>, polls: seq<Poll>, i: nat, co: nat)
    requires IsRun(beh, boot, states, polls) && i < |states|
    requires co in states[i].status && states[i].status[co].InCall?
    ensures var k := states[i].status[co].session; k in states[i].callCoro && states[i].callCoro[k].co == co
  {
    RunKeeps(beh, boot, states, polls, i);
    assert Reachable(states[i], states[i].callCoro, co);
  }

  // ---------------------------------------------------------------- repeated HTTP replies

  lemma {:induction false} ActAllLog(s: State, actions: seq<Action>)
    ensures |s.log| <= |ActAll(s, actions).log| && ActAll(s, actions).log[..|s.log|] == s.log
    decreases |actions|
  {
    if actions != [] {
      var s1 := Act(s, actions[0]);
      assert s1.log[..|s.log|] == s.log;
      ActAllLog(s1, actions[1..]);
      assert ActAll(s, actions).log[..|s1.log|][..|s.log|] == s.log;
    }
  }

  lemma ResumeLog(beh: Behaviour, s: State, co: nat, cause: Cause)
    requires co in s.status && !s.status[co].Dead?
    ensures var s' := Resume(beh, s, co, cause);
            |s.log| < |s'.log| && s'.log[|s.log|] == Resumed(co, cause, s.status[co])
  {
    var s1 := s.(log := s.log + [Resumed(co, cause, s.status[co])]);
    ActAllLog(s1, beh(s1.log, co).actions);
    var s2 := ActAll(s1, beh(s1.log, co).actions);
    assert s2.log[..|s1.log|][|s.log|] == Resumed(co, cause, s.status[co]);
  }

  /**
   httpCoro entries are never removed, so the discipline needs the HTTP client to answer a session once: a second
   reply keeps it exactly when the coroutine of that session has finished in the meantime.
   */
  lemma SecondHttpReply(beh: Behaviour, s: State, k: nat)
    requires Inv(s) && k in s.httpCoro && k in s.httpDone
    ensures GoodLog(Deliver(beh, s, HttpMsg(k)).log, Deliver(beh, s, HttpMsg(k)).autoSessionId)
            <==> s.status[s.httpCoro[k]].Dead?
  {
    var co, s1 := s.httpCoro[k], s.(httpDone := s.httpDone + {k});
    if !s.status[co].Dead? {
      assert Reachable(s, s.callCoro, co);
      assert s.status[co] != InHttp(k);
      hide GoodLog, Tables, Reachable;
      ResumeLog(beh, s1, co, HttpReply(k));
      var s' := Resume(beh, s1, co, HttpReply(k));
      hide Resume;
      assert s'.log[|s.log|].Resumed? && !Matches(s'.log[|s.log|].cause, s'.log[|s.log|].was);
      NotGood(s'.log, s'.autoSessionId, |s.log|);
    }
  }

  lemma NotGood(log: seq<Event>, auto: nat, i: nat)
    requires i < |log| && log[i].Resumed? && !Matches(log[i].cause, log[i].was)
    ensures !GoodLog(log, auto)
  {
  }

  // ---------------------------------------------------------------- the coroutines of one poll

  function ResumeOf(e: Event): seq<nat> {
    if e.Resumed? then [e.co] else []
  }

  function SpawnOf(e: Event): seq<nat> {
    if e.Spawned? then [e.co] else []
  }

  /** The coroutines resumed, and those created, in a stretch of the log. */
  function Resumes(log: seq<Event>): seq<nat> {
    if log == [] then [] else ResumeOf(log[0]) + Resumes(log[1..])
  }

  function Spawns(log: seq<Event>): seq<nat> {
    if log == [] then [] else SpawnOf(log[0]) + Spawns(log[1..])
  }

  function Reverse(q: seq<nat>): seq<nat> {
    if q == [] then [] else [q[|q| - 1]] + Reverse(q[..|q| - 1])
  }

  lemma Append3(q: seq<nat>, a: seq<nat>, b: seq<nat>)
    ensures q + a + b == q + (a + b)
  {
  }

  lemma {:induction false} ResumesConcat(a: seq<Event>, b: seq<Event>)
    ensures Resumes(a + b) == Resumes(a) + Resumes(b)
    decreases |a|
  {
    if a == [] {
      assert a + b == b;
    } else {
      hide ResumeOf;
      assert (a + b)[1..] == a[1..] + b;
      ResumesConcat(a[1..], b);
      Append3(ResumeOf(a[0]), Resumes(a[1..]), Resumes(b));
    }
  }

  lemma {:induction false} SpawnsConcat(a: seq<Event>, b: seq<Event>)
    ensures Spawns(a + b) == Spawns(a) + Spawns(b)
    decreases |a|
  {
    if a == [] {
      assert a + b == b;
    } else {
      hide SpawnOf;
      assert (a + b)[1..] == a[1..] + b;
      SpawnsConcat(a[1..], b);
      Append3(SpawnOf(a[0]), Spawns(a[1..]), Spawns(b));
    }
  }

  /** From `s` to `s'` exactly the coroutines `resumed` were resumed, and `q` plus all created ones are queued. */
  ghost predicate Ran(s: State, s': State, resumed: seq<nat>, q: seq<nat>) {
    && |s.log| <= |s'.log| && s'.log[..|s.log|] == s.log
    && Resumes(s'.log[|s.log|..]) == resumed
    && s'.nextCoro == q + Spawns(s'.log[|s.log|..])
  }

  lemma Tail(l0: seq<Event>, l1: seq<Event>, l2: seq<Event>)
    requires |l0| <= |l1| <= |l2| && l1[..|l0|] == l0 && l2[..|l1|] == l1
    ensures l2[..|l0|] == l0 && l2[|l0|..] == l1[|l0|..] + l2[|l1|..]
  {
    assert l2[..|l0|] == l2[..|l1|][..|l0|];
    assert l1[|l0|..] == l2[..|l1|][|l0|..] == l2[|l0|..|l1|];
  }

  lemma RanThen(s: State, s1: State, s2: State, r1: seq<nat>, r2: seq<nat>, q: seq<nat>, q2: seq<nat>)
    requires Ran(s, s1, r1, q) && Ran(s1, s2, r2, q2 + Spawns(s1.log[|s.log|..]))
    ensures Ran(s, s2, r1 + r2, q2)
  {
    hide Resumes, Spawns;
    var a, b := s1.log[|s.log|..], s2.log[|s1.log|..];
    Tail(s.log, s1.log, s2.log);
    ResumesConcat(a, b);
    SpawnsConcat(a, b);
    Append3(q2, Spawns(a), Spawns(b));
  }

  lemma ActRan(s: State, a: Action)
    ensures Ran(s, Act(s, a), [], s.nextCoro)
  {
    var added := Act(s, a).log[|s.log|..];
    assert |added| == 1 && added[1..] == [];
  }

  lemma {:induction false} ActAllRan(s: State, actions: seq<Action>)
    ensures Ran(s, ActAll(s, actions), [], s.nextCoro)
    decreases |actions|
  {
    if actions == [] {
      assert s.log[|s.log|..] == [];
    } else {
      hide Act;
      var s1 := Act(s, actions[0]);
      ActRan(s, actions[0]);
      ActAllRan(s1, actions[1..]);
      RanThen(s, s1, ActAll(s, actions), [], [], s.nextCoro, s.nextCoro);
    }
  }

  lemma SuspendRan(s: State, co: nat, stop: Stop)
    ensures Ran(s, Suspend(s, co, stop), [], s.nextCoro)
  {
    var added := Suspend(s, co, stop).log[|s.log|..];
    assert added == [] || (|added| == 1 && added[1..] == []);
  }

  lemma OneEvent(e: Event)
    ensures Resumes([e]) == ResumeOf(e) && Spawns([e]) == SpawnOf(e)
  {
    assert [e][1..] == [];
  }

  lemma ResumeRan(beh: Behaviour, s: State, co: nat, cause: Cause)
    requires co in s.status && !s.status[co].Dead?
    ensures Ran(s, Resume(beh, s, co, cause), [co], s.nextCoro)
  {
    hide Suspend;
    var e := Resumed(co, cause, s.status[co]);
    var s1 := s.(log := s.log + [e]);
    assert s1.log[|s.log|..] == [e];
    OneEvent(e);
    assert Resumes([e]) == [co] && Spawns([e]) == [] && s.nextCoro + [] == s.nextCoro;
    assert Ran(s, s1, [co], s.nextCoro);
    var script := beh(s1.log, co);
    var s2 := ActAll(s1, script.actions);
    ActAllRan(s1, script.actions);
    hide Resumes;
    RanThen(s, s1, s2, [co], [], s.nextCoro, s.nextCoro);
    SuspendRan(s2, co, script.stop);
    RanThen(s, s2, Suspend(s2, co, script.stop), [co] + [], [], s.nextCoro, s.nextCoro);
    assert [co] + [] + [] == [co];
  }

  /**
   One poll runs exactly the pending coroutines: with `i` of them left, the loop resumes those `i`, each once and the
   last first, and leaves the rest of the queue followed by everything created meanwhile, in order of creation,
   however many coroutines the resumed ones create.
   */
  lemma {:induction false} PendingRunOnce(beh: Behaviour, s: State, i: nat)
    requires Inv(s) && i <= |s.nextCoro|
    ensures Ran(s, RunPending(beh, s, i), Reverse(s.nextCoro[..i]), s.nextCoro[i..])
    decreases i
  {
    if i == 0 {
      assert s.nextCoro[0..] == s.nextCoro && s.log[|s.log|..] == [];
    } else {
      var co, s1 := s.nextCoro[i - 1], s.(nextCoro := Drop(s.nextCoro, i - 1));
      PendingDue(s, i);
      assert s.status[co].Queued?;
      ResumeRan(beh, s1, co, First);
      var s2 := Resume(beh, s1, co, First);
      assert s1.callCoro - {} == s1.callCoro && s2.callCoro - {} == s2.callCoro;
      ResumeKeeps(beh, s1, {}, co, First);
      hide Inv, Tables, GoodLog, Due, Resume;
      assert Inv(s2);
      PendingRunOnce(beh, s2, i - 1);
      PendingSplit(s, s1, s2, RunPending(beh, s2, i - 1), i, co);
    }
  }

  lemma PendingSplit(s: State, s1: State, s2: State, s3: State, i: nat, co: nat)
    requires 0 < i <= |s.nextCoro| && co == s.nextCoro[i - 1]
    requires s1.log == s.log && s1.nextCoro == Drop(s.nextCoro, i - 1)
    requires Ran(s1, s2, [co], s1.nextCoro)
    requires Ran(s2, s3, Reverse(s2.nextCoro[..i - 1]), s2.nextCoro[i - 1..])
    ensures Ran(s, s3, Reverse(s.nextCoro[..i]), s.nextCoro[i..])
  {
    var made := Spawns(s2.log[|s1.log|..]);
    assert s2.nextCoro[..i - 1] == s.nextCoro[..i - 1] == s.nextCoro[..i][..i - 1];
    assert s2.nextCoro[i - 1..] == s.nextCoro[i..] + made;
    RanThen(s1, s2, s3, [co], Reverse(s2.nextCoro[..i - 1]), s1.nextCoro, s.nextCoro[i..]);
    assert Reverse(s.nextCoro[..i]) == [co] + Reverse(s.nextCoro[..i][..i - 1]);
  }

  // ---------------------------------------------------------------- scripts are obeyed

  /** What a script's actions write, in order. */
  function ActionEvents(actions: seq<Action>, co: nat, session: nat): seq<Event> {
    if actions == [] then []
    else if actions[0].Async? then [Spawned(co)] + ActionEvents(actions[1..], co + 1, session)
    else [Issued(session, None)] + ActionEvents(actions[1..], co, session + 1)
  }

  /** How many sessions they use up. */
  function Used(actions: seq<Action>): nat {
    if actions == [] then 0 else (if actions[0].Async? then 0 else 1) + Used(actions[1..])
  }

  function StopEvents(stop: Stop, session: nat): seq<Event> {
    match stop
    case Call(deadline) => [Issued(session, Some(deadline))]
    case HttpGet => [Issued(session, None)]
    case Finish => []
  }

  lemma ActWrites(s: State, a: Action)
    ensures var s1 := Act(s, a);
            if a.Async? then
              s1.log == s.log + [Spawned(s.nextCo)] && s1.nextCo == s.nextCo + 1 && s1.autoSessionId == s.autoSessionId
            else
              && s1.log == s.log + [Issued(s.autoSessionId, None)]
              && s1.nextCo == s.nextCo && s1.autoSessionId == s.autoSessionId + 1
  {
  }

  lemma {:induction false} ActAllWrites(s: State, actions: seq<Action>)
    ensures var s' := ActAll(s, actions);
            && s'.log == s.log + ActionEvents(actions, s.nextCo, s.autoSessionId)
            && s'.autoSessionId == s.autoSessionId + Used(actions)
    decreases |actions|
  {
    if actions != [] {
      var s1, a, rest := Act(s, actions[0]), actions[0], actions[1..];
      ActAllWrites(s1, rest);
      ActWrites(s, a);
      hide Act, ActAll;
      assert s1.log + ActionEvents(rest, s1.nextCo, s1.autoSessionId)
          == s.log + ([s1.log[|s.log|]] + ActionEvents(rest, s1.nextCo, s1.autoSessionId));
    } else {
      assert s.log + [] == s.log;
    }
  }

  /** The log of a resumption: the coroutine does what its script says, in that order, and nothing else. */
  lemma ResumeWrites(beh: Behaviour, s: State, co: nat, cause: Cause)
    requires co in s.status && !s.status[co].Dead?
    ensures var e := Resumed(co, cause, s.status[co]);
            var script := beh(s.log + [e], co);
            Resume(beh, s, co, cause).log ==
              s.log + [e] + ActionEvents(script.actions, s.nextCo, s.autoSessionId)
                + StopEvents(script.stop, s.autoSessionId + Used(script.actions))
  {
    var s1 := s.(log := s.log + [Resumed(co, cause, s.status[co])]);
    ActAllWrites(s1, beh(s1.log, co).actions);
  }

  lemma {:induction false} NoResumption(actions: seq<Action>, co: nat, session: nat)
    ensures forall i :: 0 <= i < |ActionEvents(actions, co, session)| ==>
              !ActionEvents(actions, co, session)[i].Resumed? && !ActionEvents(actions, co, session)[i].Handled?
    decreases |actions|
  {
    if actions != [] {
      if actions[0].Async? {
        NoResumption(actions[1..], co + 1, session);
      } else {
        NoResumption(actions[1..], co, session + 1);
      }
    }
  }

  // ---------------------------------------------------------------- deadlines

  /** Coroutine `co`, resumed at `r`, called with deadline `d` and got session `k` for it at `j`. */
  ghost predicate Called(beh: Behaviour, log: seq<Event>, r: nat, j: nat, k: nat, co: nat, d: nat) {
    && r < j < |log| && log[r].Resumed? && log[r].co == co && beh(log[..r + 1], co).stop == Call(d)
    && log[j] == Issued(k, Some(d)) && forall x :: r < x < j ==> !log[x].Resumed?
  }

  ghost predicate Promised(beh: Behaviour, log: seq<Event>, k: nat, co: nat, d: nat) {
    exists r: nat, j: nat :: Called(beh, log, r, j, k, co, d)
  }

  /** Every call waits with the deadline its script gave it. */
  ghost predicate OnTime(beh: Behaviour, s: State) {
    forall k :: k in s.callCoro ==> Promised(beh, s.log, k, s.callCoro[k].co, s.callCoro[k].time)
  }

  /** From `from` on, whoever was resumed by a timeout had called with a deadline that `now` is past. */
  ghost predicate Overdue(beh: Behaviour, log: seq<Event>, from: nat, now: nat) {
    forall m :: from <= m < |log| && log[m].Resumed? && log[m].cause.Timeout? ==> IsOverdue(beh, log[..m], log[m], now)
  }

  /** The coroutine resumed had called, for the session that timed out, with a deadline that `now` is past. */
  ghost predicate IsOverdue(beh: Behaviour, log: seq<Event>, e: Event, now: nat)
    requires e.Resumed? && e.cause.Timeout?
  {
    exists d :: Promised(beh, log, e.cause.session, e.co, d) && now > d
  }

  ghost predicate Prefix(log: seq<Event>, log': seq<Event>) {
    |log| <= |log'| && log'[..|log|] == log
  }

  lemma PrefixThen(a: seq<Event>, b: seq<Event>, c: seq<Event>)
    requires Prefix(a, b) && Prefix(b, c)
    ensures Prefix(a, c)
  {
    assert c[..|a|] == c[..|b|][..|a|];
  }

  lemma PromisedGrows(beh: Behaviour, log: seq<Event>, log': seq<Event>, k: nat, co: nat, d: nat)
    requires Promised(beh, log, k, co, d) && Prefix(log, log')
    ensures Promised(beh, log', k, co, d)
  {
    var r: nat, j: nat :| Called(beh, log, r, j, k, co, d);
    assert forall x :: 0 <= x < |log| ==> log'[x] == log[x];
    assert log'[..r + 1] == log[..r + 1];
    assert Called(beh, log', r, j, k, co, d);
  }

  lemma OverdueThen(beh: Behaviour, log: seq<Event>, log': seq<Event>, from: nat, now: nat)
    requires Overdue(beh, log, from, now) && Prefix(log, log') && Overdue(beh, log', |log|, now) && from <= |log|
    ensures Overdue(beh, log', from, now)
  {
    hide IsOverdue;
    forall m | from <= m < |log'| && log'[m].Resumed? && log'[m].cause.Timeout?
      ensures IsOverdue(beh, log'[..m], log'[m], now)
    {
      if m < |log| {
        assert log'[m] == log[m] && log'[..m] == log[..m];
      }
    }
  }

  /** A phase of a poll: the log grows, calls keep their deadlines, and only what is overdue times out. */
  ghost predicate Timely(beh: Behaviour, s: State, s': State, now: nat) {
    Prefix(s.log, s'.log) && OnTime(beh, s') && Overdue(beh, s'.log, |s.log|, now)
  }

  lemma TimelyThen(beh: Behaviour, s: State, s1: State, s2: State, now: nat)
    requires Timely(beh, s, s1, now) && Timely(beh, s1, s2, now)
    ensures Timely(beh, s, s2, now)
  {
    hide OnTime, Overdue;
    PrefixThen(s.log, s1.log, s2.log);
    OverdueThen(beh, s1.log, s2.log, |s.log|, now);
  }

  lemma TimelySame(beh: Behaviour, s: State, s': State, now: nat)
    requires OnTime(beh, s) && s'.log == s.log
    requires forall k :: k in s'.callCoro ==> k in s.callCoro && s'.callCoro[k] == s.callCoro[k]
    ensures Timely(beh, s, s', now)
  {
    hide Promised;
  }

  /** What a resumption writes times nobody out but, maybe, the coroutine resumed. */
  lemma NewEvents(beh: Behaviour, log: seq<Event>, e: Event, rest: seq<Event>, now: nat)
    requires forall x :: 0 <= x < |rest| ==> !rest[x].Resumed?
    requires e.Resumed? && e.cause.Timeout? ==> exists d :: Promised(beh, log, e.cause.session, e.co, d) && now > d
    ensures Prefix(log, log + [e] + rest) && Overdue(beh, log + [e] + rest, |log|, now)
  {
    hide Promised;
    var log' := log + [e] + rest;
    assert log'[..|log|] == log && log'[|log|] == e;
    assert forall x :: |log| < x < |log'| ==> log'[x] == rest[x - |log| - 1];
  }

  lemma NewCall(beh: Behaviour, log: seq<Event>, e: Event, added: seq<Event>, k: nat, d: nat)
    requires e.Resumed? && beh(log + [e], e.co).stop == Call(d)
    requires forall x :: 0 <= x < |added| ==> !added[x].Resumed?
    ensures Promised(beh, log + [e] + (added + [Issued(k, Some(d))]), k, e.co, d)
  {
    var log' := log + [e] + (added + [Issued(k, Some(d))]);
    var n, j := |log|, |log| + 1 + |added|;
    assert log'[..n + 1] == log + [e] && log'[n] == e && log'[j] == Issued(k, Some(d));
    assert forall x :: n < x < j ==> log'[x] == added[x - n - 1];
    assert Called(beh, log', n, j, k, e.co, d);
  }

  lemma ResumeTimely(beh: Behaviour, s: State, co: nat, cause: Cause, now: nat)
    requires OnTime(beh, s)
    requires cause.Timeout? ==> exists d :: Promised(beh, s.log, cause.session, co, d) && now > d
    ensures Timely(beh, s, Resume(beh, s, co, cause), now)
  {
    hide Resume, OnTime, ActionEvents, Used, Overdue, Prefix, Promised;
    if co !in s.status || s.status[co].Dead? {
      ResumeDead(beh, s, co, cause);
      TimelySame(beh, s, s, now);
    } else {
      var e, s' := Resumed(co, cause, s.status[co]), Resume(beh, s, co, cause);
      var script := beh(s.log + [e], co);
      var added := ActionEvents(script.actions, s.nextCo, s.autoSessionId);
      var k := s.autoSessionId + Used(script.actions);
      var rest := added + StopEvents(script.stop, k);
      ResumeWrites(beh, s, co, cause);
      NoResumption(script.actions, s.nextCo, s.autoSessionId);
      ResumeEnters(beh, s, co, cause);
      assert s'.log == s.log + [e] + rest;
      NewEvents(beh, s.log, e, rest, now);
      if script.stop.Call? {
        NewCall(beh, s.log, e, added, k, script.stop.deadline);
      }
      CallsOnTime(beh, s, s', if script.stop.Call? then {k} else {});
    }
  }

  lemma ResumeDead(beh: Behaviour, s: State, co: nat, cause: Cause)
    requires co !in s.status || s.status[co].Dead?
    ensures Resume(beh, s, co, cause) == s
  {
  }

  lemma CallsOnTime(beh: Behaviour, s: State, s': State, entered: set<nat>)
    requires OnTime(beh, s) && Prefix(s.log, s'.log)
    requires forall k :: k in s'.callCoro && k !in entered ==> k in s.callCoro && s'.callCoro[k] == s.callCoro[k]
    requires forall k :: k in entered && k in s'.callCoro ==>
               Promised(beh, s'.log, k, s'.callCoro[k].co, s'.callCoro[k].time)
    ensures OnTime(beh, s')
  {
    hide Promised, Prefix;
    forall k | k in s'.callCoro ensures Promised(beh, s'.log, k, s'.callCoro[k].co, s'.callCoro[k].time) {
      if k !in entered {
        PromisedGrows(beh, s.log, s'.log, k, s.callCoro[k].co, s.callCoro[k].time);
      }
    }
  }

  /** The one entry a resumption makes. */
  lemma ResumeEnters(beh: Behaviour, s: State, co: nat, cause: Cause)
    requires co in s.status && !s.status[co].Dead?
    ensures var script := beh(s.log + [Resumed(co, cause, s.status[co])], co);
            Resume(beh, s, co, cause).callCoro ==
              if script.stop.Call?
              then s.callCoro[s.autoSessionId + Used(script.actions) := Pending(co, script.stop.deadline)]
              else s.callCoro
  {
    var s1 := s.(log := s.log + [Resumed(co, cause, s.status[co])]);
    ActAllCalls(s1, beh(s1.log, co).actions);
    ActAllWrites(s1, beh(s1.log, co).actions);
  }

  lemma HandleTimely(beh: Behaviour, s: State, m: Msg, now: nat)
    requires OnTime(beh, s)
    ensures Timely(beh, s, Handle(beh, s, m), now)
  {
    var s1, s' := s.(log := s.log + [Handled(m)]), Handle(beh, s, m);
    var actions := beh(s1.log, 0).actions;
    ActAllWrites(s1, actions);
    ActAllCalls(s1, actions);
    NoResumption(actions, s.nextCo, s.autoSessionId);
    hide Handle, ActAll, ActionEvents, OnTime, Promised;
    var added := ActionEvents(actions, s.nextCo, s.autoSessionId);
    assert s'.log == s.log + [Handled(m)] + added;
    assert forall x :: |s.log| < x < |s'.log| ==> s'.log[x] == added[x - |s.log| - 1];
    CallsOnTime(beh, s, s', {});
  }

  lemma {:induction false} PendingTimely(beh: Behaviour, s: State, i: nat, now: nat)
    requires OnTime(beh, s)
    ensures Timely(beh, s, RunPending(beh, s, i), now)
    decreases i
  {
    hide Resume, OnTime, Timely;
    if 0 < i <= |s.nextCoro| {
      var s1 := s.(nextCoro := Drop(s.nextCoro, i - 1));
      var s2 := Resume(beh, s1, s.nextCoro[i - 1], First);
      OtherQueue(beh, s, s1);
      ResumeTimely(beh, s1, s.nextCoro[i - 1], First, now);
      TimelyFrom(beh, s, s1, s2, now);
      TimelyHas(beh, s, s2, now);
      PendingTimely(beh, s2, i - 1, now);
      TimelyThen(beh, s, s2, RunPending(beh, s2, i - 1), now);
    } else {
      TimelySame(beh, s, s, now);
    }
  }

  lemma OtherQueue(beh: Behaviour, s: State, s1: State)
    requires OnTime(beh, s) && s1.log == s.log
    requires forall k :: k in s1.callCoro ==> k in s.callCoro && s1.callCoro[k] == s.callCoro[k]
    ensures OnTime(beh, s1)
  {
  }

  lemma TimelyFrom(beh: Behaviour, s: State, s1: State, s2: State, now: nat)
    requires Timely(beh, s1, s2, now) && s1.log == s.log
    ensures Timely(beh, s, s2, now)
  {
  }

  lemma TimelyHas(beh: Behaviour, s: State, s': State, now: nat)
    requires Timely(beh, s, s', now)
    ensures OnTime(beh, s') && Prefix(s.log, s'.log) && Overdue(beh, s'.log, |s.log|, now)
  {
  }

  lemma TimelyLess(beh: Behaviour, s: State, s': State, calls: map<nat, Pending>, now: nat)
    requires Timely(beh, s, s', now)
    requires forall k :: k in calls ==> k in s'.callCoro && calls[k] == s'.callCoro[k]
    ensures Timely(beh, s, s'.(callCoro := calls), now)
  {
    hide Promised, Overdue;
  }

  lemma PromisedOf(beh: Behaviour, s: State, k: nat)
    requires OnTime(beh, s) && k in s.callCoro
    ensures Promised(beh, s.log, k, s.callCoro[k].co, s.callCoro[k].time)
  {
  }

  lemma {:induction false} ExpireTimely(beh: Behaviour, s: State, now: nat, order: seq<nat>)
    requires OnTime(beh, s)
    ensures Timely(beh, s, Expire(beh, s, now, order), now)
    decreases |order|
  {
    hide Resume, OnTime, Timely, Promised;
    if order == [] {
      TimelySame(beh, s, s, now);
    } else {
      var k := order[0];
      if k in s.callCoro && now > s.callCoro[k].time {
        var s2 := Resume(beh, s, s.callCoro[k].co, Timeout(k));
        var s3 := s2.(callCoro := s2.callCoro - {k});
        PromisedOf(beh, s, k);
        ResumeTimely(beh, s, s.callCoro[k].co, Timeout(k), now);
        TimelyLess(beh, s, s2, s2.callCoro - {k}, now);
        TimelyHas(beh, s, s3, now);
        ExpireTimely(beh, s3, now, order[1..]);
        TimelyThen(beh, s, s3, Expire(beh, s3, now, order[1..]), now);
      } else {
        ExpireTimely(beh, s, now, order[1..]);
      }
    }
  }

  lemma DeliverTimely(beh: Behaviour, s: State, m: Msg, now: nat)
    requires OnTime(beh, s)
    ensures Timely(beh, s, Deliver(beh, s, m), now)
  {
    hide Resume, Handle, OnTime, Timely;
    TimelySame(beh, s, s, now);
    HandleTimely(beh, s, m, now);
    match m
    case HttpMsg(session) =>
      if session in s.httpCoro {
        var s1 := s.(httpDone := s.httpDone + {session});
        OtherQueue(beh, s, s1);
        ResumeTimely(beh, s1, s.httpCoro[session], HttpReply(session), now);
        TimelyFrom(beh, s, s1, Deliver(beh, s, m), now);
      }
    case Response(session) =>
      if session in s.callCoro {
        var s1 := s.(callCoro := s.callCoro - {session});
        OtherQueue(beh, s, s1);
        ResumeTimely(beh, s1, s.callCoro[session].co, Answer(session), now);
        TimelyFrom(beh, s, s1, Deliver(beh, s, m), now);
      }
    case _ =>
  }

  lemma {:induction false} DeliverAllTimely(beh: Behaviour, s: State, msgs: seq<Msg>, now: nat)
    requires OnTime(beh, s)
    ensures Timely(beh, s, DeliverAll(beh, s, msgs).0, now)
    decreases |msgs|
  {
    hide Deliver, OnTime, Timely;
    if msgs != [] && !Unmatched(s, msgs[0]) {
      var s1 := Deliver(beh, s, msgs[0]);
      DeliverTimely(beh, s, msgs[0], now);
      TimelyHas(beh, s, s1, now);
      DeliverAllTimely(beh, s1, msgs[1..], now);
      TimelyThen(beh, s, s1, DeliverAll(beh, s1, msgs[1..]).0, now);
    } else {
      TimelySame(beh, s, s, now);
    }
  }

  lemma SpawnTimely(beh: Behaviour, s: State, now: nat)
    requires OnTime(beh, s)
    ensures Timely(beh, s, Spawn(s), now)
  {
    hide OnTime, Promised;
    CallsOnTime(beh, s, Spawn(s), {});
  }

  lemma OnPollTimely(beh: Behaviour, s: State, now: nat, order: seq<nat>, msgs: seq<Msg>)
    requires OnTime(beh, s)
    ensures Timely(beh, s, OnPoll(beh, s, now, order, msgs), now)
  {
    hide OnTime, Timely, RunPending, Expire, DeliverAll, Spawn;
    var s1 := RunPending(beh, s, |s.nextCoro|);
    PendingTimely(beh, s, |s.nextCoro|, now);
    TimelyHas(beh, s, s1, now);
    var s2 := Expire(beh, s1, now, order);
    ExpireTimely(beh, s1, now, order);
    TimelyHas(beh, s1, s2, now);
    TimelyThen(beh, s, s1, s2, now);
    var s3 := DeliverAll(beh, s2, msgs).0;
    DeliverAllTimely(beh, s2, msgs, now);
    TimelyHas(beh, s2, s3, now);
    TimelyThen(beh, s, s2, s3, now);
    SpawnTimely(beh, s3, now);
    TimelyThen(beh, s, s3, Spawn(s3), now);
  }

  lemma {:induction false} RunOnTime(beh: Behaviour, boot: seq<Action>, states: seq<State>, polls: seq<Poll>, i: nat)
    requires IsRun(beh, boot, states, polls) && i < |states|
    ensures OnTime(beh, states[i])
    decreases i
  {
    if i == 0 {
      ActAllCalls(EMPTY, boot);
    } else {
      RunOnTime(beh, boot, states, polls, i - 1);
      hide OnTime, OnPoll, FreshReplies, Timely;
      var p := polls[i - 1];
      OnPollTimely(beh, states[i - 1], p.now, p.order, p.msgs);
      TimelyHas(beh, states[i - 1], states[i], p.now);
    }
  }

  /**
   No call times out early. In every poll of every run, whoever is resumed by the timeout of session `k` had got `k`
   for a call of its own, with a deadline its script gave, and the clock of this very poll is past that deadline.
   */
  lemma TimeoutsOverdue(beh: Behaviour, boot: seq<Action>, states: seq<State>, polls: seq<Poll>, i: nat, m: nat)
    requires IsRun(beh, boot, states, polls) && i < |polls| && |states[i].log| <= m < |states[i + 1].log|
    requires states[i + 1].log[m].Resumed? && states[i + 1].log[m].cause.Timeout?
    ensures IsOverdue(beh, states[i + 1].log[..m], states[i + 1].log[m], polls[i].now)
  {
    RunOnTime(beh, boot, states, polls, i);
    var p := polls[i];
    assert states[i + 1] == OnPoll(beh, states[i], p.now, p.order, p.msgs) by {
      hide OnPoll, FreshReplies;
    }
    hide OnTime, OnPoll, Timely, IsRun, Promised;
    OnPollTimely(beh, states[i], p.now, p.order, p.msgs);
    TimelyHas(beh, states[i], states[i + 1], p.now);
  }

  /** From `from` on, coroutine `co` is resumed by the timeout of session `k`, in which it waited. */
  ghost predicate TimedOut(log: seq<Event>, from: nat, co: nat, k: nat) {
    exists m :: from <= m < |log| && log[m] == Resumed(co, Timeout(k), InCall(k))
  }

  lemma TimedOutGrows(log: seq<Event>, log': seq<Event>, from: nat, from': nat, co: nat, k: nat)
    requires TimedOut(log, from, co, k) && Prefix(log, log') && from' <= from
    ensures TimedOut(log', from', co, k)
  {
    var m :| from <= m < |log| && log[m] == Resumed(co, Timeout(k), InCall(k));
    assert log'[..|log|][m] == log[m];
  }

  /** The timeout of one call. */
  lemma ExpireStep(beh: Behaviour, s: State, now: nat, x: nat)
    requires Inv(s) && OnTime(beh, s) && x in s.callCoro && now > s.callCoro[x].time
    ensures var s2 := Resume(beh, s, s.callCoro[x].co, Timeout(x));
            var s3 := s2.(callCoro := s2.callCoro - {x});
            && Inv(s3) && OnTime(beh, s3) && Prefix(s.log, s3.log) && TimedOut(s3.log, |s.log|, s.callCoro[x].co, x)
            && Lost(s, s3, {x})
  {
    hide Inv, Resume, OnTime, Timely, Promised;
    var co := s.callCoro[x].co;
    var s2 := Resume(beh, s, co, Timeout(x));
    var s3 := s2.(callCoro := s2.callCoro - {x});
    WaitsAt(s, x);
    PromisedOf(beh, s, x);
    ResumeTimely(beh, s, co, Timeout(x), now);
    TimelyLess(beh, s, s2, s2.callCoro - {x}, now);
    TimelyHas(beh, s, s3, now);
    ExpireOne(beh, s, x);
    ResumeCalls(beh, s, co, Timeout(x));
    ResumeLog(beh, s, co, Timeout(x));
    assert s3.log[|s.log|] == Resumed(co, Timeout(x), InCall(x));
  }

  lemma {:induction false} ExpireHits(beh: Behaviour, s: State, now: nat, order: seq<nat>, k: nat)
    requires Inv(s) && OnTime(beh, s) && TimesOut(s, now, order, k)
    ensures TimedOut(Expire(beh, s, now, order).log, |s.log|, s.callCoro[k].co, k)
    decreases |order|
  {
    var x, s' := order[0], Expire(beh, s, now, order);
    WaitsAt(s, k);
    hide Inv, Resume, OnTime, Timely, TimedOut, Prefix, Overdue, Lost;
    if x in s.callCoro && now > s.callCoro[x].time {
      var s2 := Resume(beh, s, s.callCoro[x].co, Timeout(x));
      var s3 := s2.(callCoro := s2.callCoro - {x});
      ExpireStep(beh, s, now, x);
      if x == k {
        ExpireTimely(beh, s3, now, order[1..]);
        TimelyHas(beh, s3, s', now);
        TimedOutGrows(s3.log, s'.log, |s.log|, |s.log|, s.callCoro[k].co, k);
      } else {
        TimesOutStill(s, s3, now, order, k);
        ExpireHits(beh, s3, now, order[1..], k);
        LogLonger(s, s3);
        TimedOutLater(s'.log, |s3.log|, |s.log|, s.callCoro[k].co, k);
      }
    } else {
      ExpireHits(beh, s, now, order[1..], k);
    }
  }

  lemma TimesOutStill(s: State, s': State, now: nat, order: seq<nat>, k: nat)
    requires order != [] && TimesOut(s, now, order, k) && k != order[0] && k < s.autoSessionId
    requires Lost(s, s', {order[0]})
    ensures TimesOut(s', now, order[1..], k) && s'.callCoro[k] == s.callCoro[k]
  {
  }

  lemma LogLonger(s: State, s': State)
    requires Prefix(s.log, s'.log)
    ensures |s.log| <= |s'.log|
  {
  }

  lemma TimedOutLater(log: seq<Event>, from: nat, from': nat, co: nat, k: nat)
    requires TimedOut(log, from, co, k) && from' <= from
    ensures TimedOut(log, from', co, k)
  {
  }

  lemma WaitsAt(s: State, k: nat)
    requires Inv(s) && k in s.callCoro
    ensures s.callCoro[k].co in s.status && s.status[s.callCoro[k].co] == InCall(k) && k < s.autoSessionId
  {
  }

  /** A session is issued once, with one deadline. */
  lemma OneDeadline(beh: Behaviour, log: seq<Event>, auto: nat, k: nat, co: nat, d: nat, co': nat, d': nat)
    requires GoodLog(log, auto) && Promised(beh, log, k, co, d) && Promised(beh, log, k, co', d')
    ensures d == d'
  {
    var r: nat, j: nat :| Called(beh, log, r, j, k, co, d);
    var r': nat, j': nat :| Called(beh, log, r', j', k, co', d');
    assert log[j].Issued? && log[j'].Issued?;
  }

  /**
   And none times out late: a coroutine that waits in session `k`, whose script called with deadline `d`, is resumed by
   the timeout of `k` in the first poll that comes to `k` with a clock past `d`.
   */
  lemma OverdueTimesOut(beh: Behaviour, boot: seq<Action>, states: seq<State>, polls: seq<Poll>, i: nat, co: nat,
        k: nat, d: nat)
    requires IsRun(beh, boot, states, polls) && i < |polls|
    requires co in states[i].status && states[i].status[co] == InCall(k) && Promised(beh, states[i].log, k, co, d)
    requires k in polls[i].order && polls[i].now > d
    ensures TimedOut(states[i + 1].log, |states[i].log|, co, k)
  {
    var p, s := polls[i], states[i];
    assert states[i + 1] == OnPoll(beh, s, p.now, p.order, p.msgs) by {
      hide OnPoll, FreshReplies;
    }
    RunKeeps(beh, boot, states, polls, i);
    RunOnTime(beh, boot, states, polls, i);
    NobodyForgotten(beh, boot, states, polls, i, co);
    PromisedOf(beh, s, k);
    OneDeadline(beh, s.log, s.autoSessionId, k, co, d, s.callCoro[k].co, s.callCoro[k].time);
    WaitsAt(s, k);
    hide IsRun, Inv, OnTime, RunPending, Expire, DeliverAll, Spawn, Timely, Promised;
    PollHits(beh, s, p.now, p.order, p.msgs, k);
  }

  lemma PollHits(beh: Behaviour, s: State, now: nat, order: seq<nat>, msgs: seq<Msg>, k: nat)
    requires Inv(s) && OnTime(beh, s) && TimesOut(s, now, order, k) && k < s.autoSessionId
    ensures TimedOut(OnPoll(beh, s, now, order, msgs).log, |s.log|, s.callCoro[k].co, k)
  {
    hide Inv, OnTime, RunPending, Expire, DeliverAll, Spawn, Timely, Overdue, TimedOut;
    var s1 := RunPending(beh, s, |s.nextCoro|);
    PendingTimely(beh, s, |s.nextCoro|, now);
    TimelyHas(beh, s, s1, now);
    PendingCalls(beh, s, |s.nextCoro|);
    RunPendingKeeps(beh, s, |s.nextCoro|);
    var s2 := Expire(beh, s1, now, order);
    ExpireTimely(beh, s1, now, order);
    TimelyHas(beh, s1, s2, now);
    ExpireHits(beh, s1, now, order, k);
    var s3 := DeliverAll(beh, s2, msgs).0;
    DeliverAllTimely(beh, s2, msgs, now);
    TimelyHas(beh, s2, s3, now);
    SpawnTimely(beh, s3, now);
    TimelyHas(beh, s3, Spawn(s3), now);
    PrefixThen(s2.log, s3.log, Spawn(s3).log);
    TimedOutGrows(s2.log, s3.log, |s1.log|, |s.log|, s.callCoro[k].co, k);
    TimedOutGrows(s2.log, Spawn(s3).log, |s1.log|, |s.log|, s.callCoro[k].co, k);
  }

  // ---------------------------------------------------------------- shutdown

  lemma {:induction false} NoResponseCompletes(beh: Behaviour, s: State, msgs: seq<Msg>)
    requires forall i :: 0 <= i < |msgs| ==> !msgs[i].Response?
    ensures DeliverAll(beh, s, msgs).1
    decreases |msgs|
  {
    if msgs != [] {
      NoResponseCompletes(beh, Deliver(beh, s, msgs[0]), msgs[1..]);
    }
  }

  lemma {:induction false} ActAllCalls(s: State, actions: seq<Action>)
    ensures ActAll(s, actions).callCoro == s.callCoro && ActAll(s, actions).autoSessionId >= s.autoSessionId
    decreases |actions|
  {
    if actions != [] {
      ActAllCalls(Act(s, actions[0]), actions[1..]);
    }
  }

  /** From `s` to `s'` the calls issued before `s` are those of `s` except those in `gone`. */
  ghost predicate Lost(s: State, s': State, gone: set<nat>) {
    && s.autoSessionId <= s'.autoSessionId
    && forall k: nat :: k < s.autoSessionId ==>
         && (k in s'.callCoro <==> k in s.callCoro && k !in gone)
         && (k in s'.callCoro ==> s'.callCoro[k] == s.callCoro[k])
  }

  lemma LostThen(s: State, s1: State, s2: State, a: set<nat>, b: set<nat>)
    requires Lost(s, s1, a) && Lost(s1, s2, b)
    ensures Lost(s, s2, a + b)
  {
  }

  lemma ResumeCalls(beh: Behaviour, s: State, co: nat, cause: Cause)
    ensures Lost(s, Resume(beh, s, co, cause), {})
  {
    if co in s.status && !s.status[co].Dead? {
      var s1 := s.(log := s.log + [Resumed(co, cause, s.status[co])]);
      ActAllCalls(s1, beh(s1.log, co).actions);
    }
  }

  lemma DeliverCalls(beh: Behaviour, s: State, m: Msg)
    ensures Lost(s, Deliver(beh, s, m), if m.Response? then {m.session} else {})
  {
    hide Resume, ActAll;
    var s1 := s.(log := s.log + [Handled(m)]);
    ActAllCalls(s1, beh(s1.log, 0).actions);
    match m
    case HttpMsg(session) =>
      if session in s.httpCoro {
        ResumeCalls(beh, s.(httpDone := s.httpDone + {session}), s.httpCoro[session], HttpReply(session));
      }
    case Response(session) =>
      if session in s.callCoro {
        ResumeCalls(beh, s.(callCoro := s.callCoro - {session}), s.callCoro[session].co, Answer(session));
      }
    case _ =>
  }

  lemma {:induction false} PendingCalls(beh: Behaviour, s: State, i: nat)
    ensures Lost(s, RunPending(beh, s, i), {})
    decreases i
  {
    hide Resume;
    if 0 < i <= |s.nextCoro| {
      var s1 := s.(nextCoro := Drop(s.nextCoro, i - 1));
      var s2 := Resume(beh, s1, s.nextCoro[i - 1], First);
      ResumeCalls(beh, s1, s.nextCoro[i - 1], First);
      PendingCalls(beh, s2, i - 1);
      LostThen(s, s2, RunPending(beh, s2, i - 1), {}, {});
    }
  }

  /** Call `k` has run out of time and the timeout loop comes to it. */
  predicate TimesOut(s: State, now: nat, order: seq<nat>, k: nat) {
    k in order && k in s.callCoro && now > s.callCoro[k].time
  }

  lemma {:induction false} ExpireCalls(beh: Behaviour, s: State, now: nat, order: seq<nat>)
    ensures var s' := Expire(beh, s, now, order);
            && s.autoSessionId <= s'.autoSessionId
            && forall k: nat :: k < s.autoSessionId ==>
                 (k in s'.callCoro <==> k in s.callCoro && !TimesOut(s, now, order, k))
    decreases |order|
  {
    hide Resume;
    if order != [] {
      var k := order[0];
      if k in s.callCoro && now > s.callCoro[k].time {
        var s2 := Resume(beh, s, s.callCoro[k].co, Timeout(k));
        ResumeCalls(beh, s, s.callCoro[k].co, Timeout(k));
        ExpireCalls(beh, s2.(callCoro := s2.callCoro - {k}), now, order[1..]);
      } else {
        ExpireCalls(beh, s, now, order[1..]);
      }
    }
  }

  /** Every response of the batch has its call in `calls`, and no call has two. */
  ghost predicate Answerable(calls: iset<nat>, msgs: seq<Msg>) {
    && (forall i :: 0 <= i < |msgs| && msgs[i].Response? ==> msgs[i].session in calls)
    && (forall i, j :: 0 <= i < j < |msgs| && msgs[i].Response? ==> msgs[j] != msgs[i])
  }

  /** No response is to a session not issued yet. */
  ghost predicate Sane(s: State, msgs: seq<Msg>) {
    forall i :: 0 <= i < |msgs| && msgs[i].Response? ==> msgs[i].session < s.autoSessionId
  }

  lemma AnswerableNext(calls: iset<nat>, calls': iset<nat>, msgs: seq<Msg>)
    requires msgs != [] && (msgs[0].Response? ==> msgs[0].session in calls)
    requires forall i :: 1 <= i < |msgs| && msgs[i].Response? ==>
               (msgs[i].session in calls' <==> msgs[i].session in calls && msgs[i] != msgs[0])
    ensures Answerable(calls, msgs) <==> Answerable(calls', msgs[1..])
  {
    var rest := msgs[1..];
    if Answerable(calls', rest) {
      forall i, j | 0 <= i < j < |msgs| && msgs[i].Response? ensures msgs[j] != msgs[i] {
        assert msgs[j] == rest[j - 1];
        if i > 0 {
          assert msgs[i] == rest[i - 1];
        }
      }
      forall i | 0 <= i < |msgs| && msgs[i].Response? ensures msgs[i].session in calls {
        if i > 0 {
          assert msgs[i] == rest[i - 1];
        }
      }
    }
  }

  ghost function Calls(s: State): iset<nat> {
    iset k | k in s.callCoro
  }

  /** The batch is handled to its end exactly when every response meets a waiting call and none comes twice. */
  lemma {:induction false} BatchCompletes(beh: Behaviour, s: State, msgs: seq<Msg>)
    requires Sane(s, msgs)
    ensures DeliverAll(beh, s, msgs).1 <==> Answerable(Calls(s), msgs)
    decreases |msgs|
  {
    hide Deliver;
    if msgs != [] && !Unmatched(s, msgs[0]) {
      var s1 := Deliver(beh, s, msgs[0]);
      DeliverCalls(beh, s, msgs[0]);
      assert Sane(s1, msgs[1..]);
      hide Answerable;
      BatchCompletes(beh, s1, msgs[1..]);
      AnswerableNext(Calls(s), Calls(s1), msgs);
    }
  }

  /** The calls that are still waiting when the batch is looked at, as far as they are older than the poll. */
  ghost function Waiting(s: State, now: nat, order: seq<nat>): iset<nat> {
    iset k | k in s.callCoro && !TimesOut(s, now, order, k)
  }

  lemma SameAnswerable(a: iset<nat>, b: iset<nat>, bound: nat, msgs: seq<Msg>)
    requires forall i :: 0 <= i < |msgs| && msgs[i].Response? ==> msgs[i].session < bound
    requires forall k: nat :: k < bound ==> (k in a <==> k in b)
    ensures Answerable(a, msgs) <==> Answerable(b, msgs)
  {
  }

  /**
   When a Close is obeyed. A poll starts with the batch already in hand, so its responses are to older calls. The
   shutdown is queued exactly when the batch holds a Close and each of its responses is the only one to a call that
   waits and does not time out in this very poll; otherwise nothing follows the messages and the Close is forgotten.
   */
  lemma CloseExactly(beh: Behaviour, s: State, now: nat, order: seq<nat>, msgs: seq<Msg>)
    requires Sane(s, msgs)
    ensures var s2 := DeliverAll(beh, Expire(beh, RunPending(beh, s, |s.nextCoro|), now, order), msgs).0;
            OnPoll(beh, s, now, order, msgs) ==
            if Close in msgs && Answerable(Waiting(s, now, order), msgs) then Spawn(s2) else s2
  {
    hide RunPending, Expire, DeliverAll, Spawn, Answerable;
    BatchThrough(beh, s, now, order, msgs);
  }

  lemma BatchThrough(beh: Behaviour, s: State, now: nat, order: seq<nat>, msgs: seq<Msg>)
    requires Sane(s, msgs)
    ensures DeliverAll(beh, Expire(beh, RunPending(beh, s, |s.nextCoro|), now, order), msgs).1
            <==> Answerable(Waiting(s, now, order), msgs)
  {
    hide RunPending, Expire, DeliverAll, Answerable;
    var s1 := RunPending(beh, s, |s.nextCoro|);
    var s2 := Expire(beh, s1, now, order);
    PendingCalls(beh, s, |s.nextCoro|);
    ExpireCalls(beh, s1, now, order);
    assert forall k: nat :: k < s.autoSessionId ==> (TimesOut(s, now, order, k) <==> TimesOut(s1, now, order, k));
    SameAnswerable(Calls(s2), Waiting(s, now, order), s.autoSessionId, msgs);
    BatchCompletes(beh, s2, msgs);
  }

  /** A Close in a batch without responses queues the shutdown coroutine last. */
  lemma CloseHonoured(beh: Behaviour, s: State, now: nat, order: seq<nat>, msgs: seq<Msg>)
    requires Close in msgs && forall i :: 0 <= i < |msgs| ==> !msgs[i].Response?
    ensures var s' := OnPoll(beh, s, now, order, msgs);
            s'.nextCoro != [] && s'.log != [] && s'.log[|s'.log| - 1] == Spawned(s'.nextCoro[|s'.nextCoro| - 1])
  {
    var s2 := Expire(beh, RunPending(beh, s, |s.nextCoro|), now, order);
    NoResponseCompletes(beh, s2, msgs);
  }

  /** The batch without its Close messages. */
  function Others(msgs: seq<Msg>): seq<Msg> {
    if msgs == [] then [] else (if msgs[0].Close? then [] else [msgs[0]]) + Others(msgs[1..])
  }

  lemma {:induction false} SameWithoutClose(beh: Behaviour, s: State, msgs: seq<Msg>)
    ensures DeliverAll(beh, s, Others(msgs)) == DeliverAll(beh, s, msgs) && Close !in Others(msgs)
    decreases |msgs|
  {
    if msgs != [] {
      var m, rest := msgs[0], msgs[1..];
      if m.Close? {
        assert Deliver(beh, s, m) == s && Others(msgs) == Others(rest);
        SameWithoutClose(beh, s, rest);
      } else {
        hide Deliver;
        assert Others(msgs)[1..] == Others(rest);
        SameWithoutClose(beh, Deliver(beh, s, m), rest);
      }
    }
  }

  /** But in a batch with a response too many a Close is lost: the service does what it would do had nobody told it. */
  lemma CloseLost(beh: Behaviour, s: State, now: nat, order: seq<nat>, msgs: seq<Msg>)
    requires Sane(s, msgs) && !Answerable(Waiting(s, now, order), msgs)
    ensures OnPoll(beh, s, now, order, msgs) == OnPoll(beh, s, now, order, Others(msgs))
  {
    hide RunPending, Expire, DeliverAll, Answerable, Sane, Others;
    CloseExactly(beh, s, now, order, msgs);
    SameWithoutClose(beh, Expire(beh, RunPending(beh, s, |s.nextCoro|), now, order), msgs);
  }

  // ---------------------------------------------------------------- messages are handled

  function HandledBy(e: Event): seq<Msg> {
    if e.Handled? then [e.msg] else []
  }

  /** The messages handed to a handler in a stretch of the log. */
  function HandledMsgs(log: seq<Event>): seq<Msg> {
    if log == [] then [] else HandledBy(log[0]) + HandledMsgs(log[1..])
  }

  /** The messages of a batch that a handler is for: requests, socket events and timers that are set. */
  function ForHandlers(msgs: seq<Msg>, timers: set<nat>): seq<Msg> {
    if msgs == [] then []
    else
      var m := msgs[0];
      (if m.Request? || m.Socket? || (m.TimerMsg? && m.session in timers) then [m] else [])
      + ForHandlers(msgs[1..], timers)
  }

  lemma {:induction false} HandledConcat(a: seq<Event>, b: seq<Event>)
    ensures HandledMsgs(a + b) == HandledMsgs(a) + HandledMsgs(b)
    decreases |a|
  {
    if a == [] {
      assert a + b == b;
    } else {
      hide HandledBy;
      assert (a + b)[1..] == a[1..] + b;
      HandledConcat(a[1..], b);
      assert HandledMsgs(a + b) == HandledBy(a[0]) + (HandledMsgs(a[1..]) + HandledMsgs(b));
    }
  }

  lemma {:induction false} HandledNone(log: seq<Event>)
    requires forall i :: 0 <= i < |log| ==> !log[i].Handled?
    ensures HandledMsgs(log) == []
    decreases |log|
  {
    if log != [] {
      HandledNone(log[1..]);
    }
  }

  /** From `s` to `s'` exactly the messages `hs` were handled, and timers were set only under new sessions. */
  ghost predicate Did(s: State, s': State, hs: seq<Msg>) {
    && Prefix(s.log, s'.log) && HandledMsgs(s'.log[|s.log|..]) == hs && s.autoSessionId <= s'.autoSessionId
    && forall t: nat :: t < s.autoSessionId ==> (t in s'.timers <==> t in s.timers)
  }

  lemma DidThen(s: State, s1: State, s2: State, a: seq<Msg>, b: seq<Msg>)
    requires Did(s, s1, a) && Did(s1, s2, b)
    ensures Did(s, s2, a + b)
  {
    hide HandledMsgs;
    Tail(s.log, s1.log, s2.log);
    HandledConcat(s1.log[|s.log|..], s2.log[|s1.log|..]);
  }

  lemma DidMore(s: State, s1: State, s2: State, hs: seq<Msg>)
    requires Did(s, s1, []) && Did(s1, s2, hs)
    ensures Did(s, s2, hs)
  {
    hide Did;
    DidThen(s, s1, s2, [], hs);
    assert [] + hs == hs;
  }

  lemma DidNothing(s: State, s': State)
    requires s'.log == s.log && s'.autoSessionId == s.autoSessionId && s'.timers == s.timers
    ensures Did(s, s', [])
  {
    assert s.log[|s.log|..] == [];
  }

  lemma DidFrom(s: State, s1: State, s2: State, hs: seq<Msg>)
    requires Did(s1, s2, hs) && s1.log == s.log && s1.autoSessionId == s.autoSessionId && s1.timers == s.timers
    ensures Did(s, s2, hs)
  {
  }

  lemma {:induction false} ActAllTimers(s: State, actions: seq<Action>)
    ensures forall t: nat :: t < s.autoSessionId ==> (t in ActAll(s, actions).timers <==> t in s.timers)
    ensures s.autoSessionId <= ActAll(s, actions).autoSessionId
    decreases |actions|
  {
    if actions != [] {
      ActAllTimers(Act(s, actions[0]), actions[1..]);
    }
  }

  lemma ResumeTimers(beh: Behaviour, s: State, co: nat, cause: Cause)
    ensures var s' := Resume(beh, s, co, cause);
            && s.autoSessionId <= s'.autoSessionId
            && forall t: nat :: t < s.autoSessionId ==> (t in s'.timers <==> t in s.timers)
  {
    if co in s.status && !s.status[co].Dead? {
      var s1 := s.(log := s.log + [Resumed(co, cause, s.status[co])]);
      ActAllTimers(s1, beh(s1.log, co).actions);
    }
  }

  lemma ResumeDid(beh: Behaviour, s: State, co: nat, cause: Cause)
    ensures Did(s, Resume(beh, s, co, cause), [])
  {
    hide Resume, ActionEvents, Used, HandledMsgs;
    ResumeTimers(beh, s, co, cause);
    if co in s.status && !s.status[co].Dead? {
      var e, s' := Resumed(co, cause, s.status[co]), Resume(beh, s, co, cause);
      var script := beh(s.log + [e], co);
      var added := ActionEvents(script.actions, s.nextCo, s.autoSessionId);
      var rest := [e] + added + StopEvents(script.stop, s.autoSessionId + Used(script.actions));
      ResumeWrites(beh, s, co, cause);
      NoResumption(script.actions, s.nextCo, s.autoSessionId);
      HandledNone(rest);
      assert s'.log == s.log + rest && s'.log[|s.log|..] == rest;
    } else {
      ResumeDead(beh, s, co, cause);
      DidNothing(s, s);
    }
  }

  lemma HandleDid(beh: Behaviour, s: State, m: Msg)
    ensures Did(s, Handle(beh, s, m), [m])
  {
    var s1, s' := s.(log := s.log + [Handled(m)]), Handle(beh, s, m);
    var actions := beh(s1.log, 0).actions;
    ActAllWrites(s1, actions);
    ActAllTimers(s1, actions);
    NoResumption(actions, s.nextCo, s.autoSessionId);
    hide Handle, ActAll, ActionEvents, HandledMsgs;
    var added := ActionEvents(actions, s.nextCo, s.autoSessionId);
    assert s'.log == s.log + [Handled(m)] + added && s'.log[|s.log|..] == [Handled(m)] + added;
    HandledNone(added);
    HandledConcat([Handled(m)], added);
    OneHandled(m);
  }

  lemma OneHandled(m: Msg)
    ensures HandledMsgs([Handled(m)]) == [m]
  {
    assert [Handled(m)][1..] == [];
  }

  lemma OneForHandlers(m: Msg, timers: set<nat>)
    ensures ForHandlers([m], timers) ==
            if m.Request? || m.Socket? || (m.TimerMsg? && m.session in timers) then [m] else []
  {
    assert [m][1..] == [];
  }

  lemma DeliverDid(beh: Behaviour, s: State, m: Msg)
    ensures Did(s, Deliver(beh, s, m), ForHandlers([m], s.timers))
  {
    hide Resume, Handle, Did, ForHandlers;
    OneForHandlers(m, s.timers);
    DidNothing(s, s);
    HandleDid(beh, s, m);
    match m
    case HttpMsg(session) =>
      if session in s.httpCoro {
        var s1 := s.(httpDone := s.httpDone + {session});
        ResumeDid(beh, s1, s.httpCoro[session], HttpReply(session));
        DidFrom(s, s1, Deliver(beh, s, m), []);
      }
    case Response(session) =>
      if session in s.callCoro {
        var s1 := s.(callCoro := s.callCoro - {session});
        ResumeDid(beh, s1, s.callCoro[session].co, Answer(session));
        DidFrom(s, s1, Deliver(beh, s, m), []);
      }
    case _ =>
  }

  /** No timer of the batch has a session not issued yet. */
  ghost predicate SaneTimers(auto: nat, msgs: seq<Msg>) {
    forall i :: 0 <= i < |msgs| && msgs[i].TimerMsg? ==> msgs[i].session < auto
  }

  lemma {:induction false} SameForHandlers(msgs: seq<Msg>, timers: set<nat>, timers': set<nat>, auto: nat)
    requires SaneTimers(auto, msgs) && forall t: nat :: t < auto ==> (t in timers' <==> t in timers)
    ensures ForHandlers(msgs, timers') == ForHandlers(msgs, timers)
    decreases |msgs|
  {
    if msgs != [] {
      SameForHandlers(msgs[1..], timers, timers', auto);
    }
  }

  lemma FirstForHandlers(msgs: seq<Msg>, timers: set<nat>)
    requires msgs != []
    ensures ForHandlers(msgs, timers) == ForHandlers([msgs[0]], timers) + ForHandlers(msgs[1..], timers)
  {
    assert [msgs[0]][1..] == [];
  }

  lemma {:induction false} DeliverAllDid(beh: Behaviour, s: State, msgs: seq<Msg>)
    requires SaneTimers(s.autoSessionId, msgs) && DeliverAll(beh, s, msgs).1
    ensures Did(s, DeliverAll(beh, s, msgs).0, ForHandlers(msgs, s.timers))
    decreases |msgs|
  {
    if msgs == [] {
      DidNothing(s, s);
    } else {
      hide Deliver, ForHandlers, HandledMsgs;
      var s1 := Deliver(beh, s, msgs[0]);
      DeliverDid(beh, s, msgs[0]);
      FirstForHandlers(msgs, s.timers);
      SameForHandlers(msgs[1..], s.timers, s1.timers, s.autoSessionId);
      DeliverAllDid(beh, s1, msgs[1..]);
      DidThen(s, s1, DeliverAll(beh, s1, msgs[1..]).0,
              ForHandlers([msgs[0]], s.timers), ForHandlers(msgs[1..], s.timers));
    }
  }

  lemma {:induction false} PendingDid(beh: Behaviour, s: State, i: nat)
    ensures Did(s, RunPending(beh, s, i), [])
    decreases i
  {
    hide Resume, Did;
    if 0 < i <= |s.nextCoro| {
      var s1 := s.(nextCoro := Drop(s.nextCoro, i - 1));
      var s2 := Resume(beh, s1, s.nextCoro[i - 1], First);
      ResumeDid(beh, s1, s.nextCoro[i - 1], First);
      DidFrom(s, s1, s2, []);
      PendingDid(beh, s2, i - 1);
      DidMore(s, s2, RunPending(beh, s2, i - 1), []);
    } else {
      DidNothing(s, s);
    }
  }

  lemma DidTo(s: State, s1: State, s2: State, hs: seq<Msg>)
    requires Did(s, s1, hs) && s2.log == s1.log && s2.autoSessionId == s1.autoSessionId && s2.timers == s1.timers
    ensures Did(s, s2, hs)
  {
  }

  lemma {:induction false} ExpireDid(beh: Behaviour, s: State, now: nat, order: seq<nat>)
    ensures Did(s, Expire(beh, s, now, order), [])
    decreases |order|
  {
    hide Resume, Did;
    if order == [] {
      DidNothing(s, s);
    } else {
      var k := order[0];
      if k in s.callCoro && now > s.callCoro[k].time {
        var s2 := Resume(beh, s, s.callCoro[k].co, Timeout(k));
        var s3 := s2.(callCoro := s2.callCoro - {k});
        ResumeDid(beh, s, s.callCoro[k].co, Timeout(k));
        DidTo(s, s2, s3, []);
        ExpireDid(beh, s3, now, order[1..]);
        DidMore(s, s3, Expire(beh, s3, now, order[1..]), []);
      } else {
        ExpireDid(beh, s, now, order[1..]);
      }
    }
  }

  /**
   A poll that handles its batch to the end hands exactly the requests, the socket events and the timers that are set to
   a handler: each once, in order, and nothing else.
   */
  lemma MessagesHandled(beh: Behaviour, s: State, now: nat, order: seq<nat>, msgs: seq<Msg>)
    requires Sane(s, msgs) && SaneTimers(s.autoSessionId, msgs) && Answerable(Waiting(s, now, order), msgs)
    ensures var s' := OnPoll(beh, s, now, order, msgs);
            Prefix(s.log, s'.log) && HandledMsgs(s'.log[|s.log|..]) == ForHandlers(msgs, s.timers)
  {
    var s1 := RunPending(beh, s, |s.nextCoro|);
    var s2 := Expire(beh, s1, now, order);
    var s3 := DeliverAll(beh, s2, msgs).0;
    BatchThrough(beh, s, now, order, msgs);
    hide RunPending, Expire, DeliverAll, Answerable, Sane, ForHandlers, HandledMsgs, Waiting;
    PendingDid(beh, s, |s.nextCoro|);
    ExpireDid(beh, s1, now, order);
    DidMore(s, s1, s2, []);
    SameForHandlers(msgs, s.timers, s2.timers, s.autoSessionId);
    DeliverAllDid(beh, s2, msgs);
    DidMore(s, s2, s3, ForHandlers(msgs, s.timers));
    SpawnDid(s3);
    DidThen(s, s3, Spawn(s3), ForHandlers(msgs, s.timers), []);
    assert ForHandlers(msgs, s.timers) + [] == ForHandlers(msgs, s.timers);
  }

  lemma SpawnDid(s: State)
    ensures Did(s, Spawn(s), [])
  {
    assert Spawn(s).log[|s.log|..] == [Spawned(s.nextCo)];
    HandledNone([Spawned(s.nextCo)]);
  }
}
