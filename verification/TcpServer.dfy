/**
 The session table of a TCP server (src/socket/tcp/server/tcpServer.cpp). Accepting, sending and closing run on
 different threads; each is split where it gives up the lock.
 */
module TcpServer {
  import opened Basics

  /** A session is the object made for one accepted connection; no two connections share one. */
  type Session = nat

  datatype Event = Accepted(fd: nat, session: Session) | Connected(fd: nat) | CloseReported(fd: nat) | Erased(fd: nat)

  /** `log` records what happened, in order; Connected and CloseReported are the callbacks. */
  datatype State = State(sessions: map<nat, Session>, autoId: nat, log: seq<Event>)

  /** Under the lock: a number, a session, an entry. Outside it: the callbacks. close(fd) calls back before it looks. */
  datatype Step = Accept(session: Session) | Announce(fd: nat) | ReportClose(fd: nat) | Erase(fd: nat)

  function Next(s: State, step: Step): State {
    match step
    case Accept(session) =>
      State(if s.autoId in s.sessions then s.sessions else s.sessions[s.autoId := session], s.autoId + 1,
            s.log + [Accepted(s.autoId, session)])
    case Announce(fd) => s.(log := s.log + [Connected(fd)])
    case ReportClose(fd) => s.(log := s.log + [CloseReported(fd)])
    case Erase(fd) => State(s.sessions - {fd}, s.autoId, s.log + [Erased(fd)])
  }

  /** Announcing follows accepting, once; an erasure is the second half of a close that has made its report. */
  ghost predicate Enabled(s: State, step: Step) {
    match step
    case Announce(fd) => 0 < fd < s.autoId && Connected(fd) !in s.log
    case Erase(fd) => Closing(s.log, fd)
    case _ => true
  }

  /** A close of `fd` has made its report and not come to its erasure. */
  ghost predicate Closing(log: seq<Event>, fd: nat) {
    multiset(log)[Erased(fd)] < multiset(log)[CloseReported(fd)]
  }

  /** `fd` has its session and its connect callback is still to be made. */
  ghost predicate Opening(s: State, fd: nat) {
    fd < s.autoId && Connected(fd) !in s.log
  }

  ghost predicate IsRun(states: seq<State>, steps: seq<Step>) {
    && |states| == |steps| + 1 && states[0] == State(map[], 1, [])
    && forall i :: 0 <= i < |steps| ==> Enabled(states[i], steps[i]) && states[i + 1] == Next(states[i], steps[i])
  }

  /** The session was accepted under the descriptor and has not been erased since. */
  ghost predicate Holds(log: seq<Event>, fd: nat, session: Session) {
    exists i :: 0 <= i < |log| && log[i] == Accepted(fd, session) && forall j :: i < j < |log| ==> log[j] != Erased(fd)
  }

  ghost predicate Inv(s: State) {
    && (forall i, j :: 0 <= i < j < |s.log| && s.log[i].Accepted? && s.log[j].Accepted? ==> s.log[i].fd < s.log[j].fd)
    && (forall i :: 0 <= i < |s.log| && s.log[i].Accepted? ==> s.log[i].fd < s.autoId)
    && (forall fd: nat, session: Session :: fd in s.sessions && s.sessions[fd] == session <==>
        Holds(s.log, fd, session))
  }

  lemma HoldsNote(log: seq<Event>, e: Event, fd: nat, session: Session)
    ensures Holds(log + [e], fd, session) <==>
        e == Accepted(fd, session) || (Holds(log, fd, session) && e != Erased(fd))
  {
    var log' := log + [e];
    if Holds(log', fd, session) {
      var i :| 0 <= i < |log'| && log'[i] == Accepted(fd, session)
            && forall j :: i < j < |log'| ==> log'[j] != Erased(fd);
      if i < |log| {
        assert log'[|log|] != Erased(fd) && forall j :: i < j < |log| ==> log'[j] == log[j];
      }
    }
    if e == Accepted(fd, session) {
      assert log'[|log|] == Accepted(fd, session);
    }
    if Holds(log, fd, session) && e != Erased(fd) {
      var i :| 0 <= i < |log| && log[i] == Accepted(fd, session) && forall j :: i < j < |log| ==> log[j] != Erased(fd);
      assert log'[i] == Accepted(fd, session);
    }
  }

  lemma StepKeeps(s: State, step: Step)
    requires Inv(s)
    ensures Inv(Next(s, step))
  {
    var s' := Next(s, step);
    var e := s'.log[|s.log|];
    hide Holds;
    assert s'.log == s.log + [e];
    if s.autoId in s.sessions {
      Known(s, s.autoId);
    }
    forall fd: nat, session: Session
      ensures fd in s'.sessions && s'.sessions[fd] == session <==> Holds(s'.log, fd, session)
    {
      HoldsNote(s.log, e, fd, session);
    }
  }

  lemma Known(s: State, fd: nat)
    requires Inv(s) && fd in s.sessions
    ensures fd < s.autoId
  {
    assert Holds(s.log, fd, s.sessions[fd]);
  }

  lemma {:induction false} RunKeeps(states: seq<State>, steps: seq<Step>, i: nat)
    requires IsRun(states, steps) && i < |states|
    ensures Inv(states[i])
    decreases i
  {
    if i == 0 {
      assert forall fd: nat, session: Session :: !Holds(states[0].log, fd, session);
    } else {
      RunKeeps(states, steps, i - 1);
      hide Inv, Next;
      StepKeeps(states[i - 1], steps[i - 1]);
    }
  }

  /**
   Replies are routed: in every run a send finds a session exactly when that very session was accepted under the
   descriptor and not erased since, and descriptors are given out in ascending order, so none is used twice.
   */
  lemma SendRoutes(states: seq<State>, steps: seq<Step>, i: nat, fd: nat, session: Session)
    requires IsRun(states, steps) && i < |states|
    ensures fd in states[i].sessions && states[i].sessions[fd] == session <==> Holds(states[i].log, fd, session)
    ensures forall j, k :: 0 <= j < k < |states[i].log| && states[i].log[j].Accepted? && states[i].log[k].Accepted? ==>
              states[i].log[j].fd < states[i].log[k].fd
  {
    RunKeeps(states, steps, i);
  }

  // ---------------------------------------------------------------- close reports in order

  /** The service hears of the end of `fd` at most once, and not before it hears of the connection. */
  ghost predicate Orderly(log: seq<Event>, fd: nat) {
    && (forall i :: 0 <= i < |log| && log[i] == CloseReported(fd) ==> Connected(fd) in log[..i])
    && (forall i, j :: 0 <= i < j < |log| && log[i] == CloseReported(fd) ==> log[j] != CloseReported(fd))
  }

  /** The server has the session, and nobody else is between the two halves of opening or closing it. */
  ghost predicate InTime(s: State, fd: nat) {
    fd in s.sessions && !Opening(s, fd) && !Closing(s.log, fd)
  }

  lemma OrderlyNote(log: seq<Event>, e: Event, fd: nat)
    ensures Orderly(log + [e], fd) <==>
            Orderly(log, fd) && (e == CloseReported(fd) ==> Connected(fd) in log && CloseReported(fd) !in log)
  {
    var log' := log + [e];
    assert forall i :: 0 <= i < |log| ==> log'[..i] == log[..i] && log'[i] == log[i];
    assert log'[..|log|] == log && log'[|log|] == e;
    if Orderly(log', fd) {
      forall i | 0 <= i < |log| && log[i] == CloseReported(fd) ensures Connected(fd) in log[..i] {
        assert log'[i] == CloseReported(fd);
      }
    }
  }

  /** An erasure has its report; a descriptor announced was given out; and while all is in order, erased is gone. */
  ghost predicate Traced(s: State, fd: nat) {
    && multiset(s.log)[Erased(fd)] <= multiset(s.log)[CloseReported(fd)]
    && (Connected(fd) in s.log ==> 0 < fd < s.autoId)
    && s.autoId > 0
    && (0 < fd < s.autoId && Erased(fd) !in s.log ==> fd in s.sessions)
    && (Orderly(s.log, fd) && Erased(fd) in s.log ==> fd !in s.sessions)
  }

  lemma CloseAfterAll(log: seq<Event>, fd: nat)
    requires Orderly(log, fd) && CloseReported(fd) in log
    ensures Connected(fd) in log
  {
    var i :| 0 <= i < |log| && log[i] == CloseReported(fd);
    assert Connected(fd) in log[..i];
  }

  lemma TracedStep(s: State, step: Step, fd: nat)
    requires Inv(s) && Traced(s, fd) && Enabled(s, step)
    ensures Traced(Next(s, step), fd)
  {
    hide Orderly;
    var s' := Next(s, step);
    var e := s'.log[|s.log|];
    assert s'.log == s.log + [e];
    OrderlyNote(s.log, e, fd);
    if Orderly(s.log, fd) && CloseReported(fd) in s.log {
      CloseAfterAll(s.log, fd);
    }
    if s.autoId in s.sessions {
      Known(s, s.autoId);
    }
    hide Inv;
    assert multiset(s'.log) == multiset(s.log) + multiset{e};
  }

  lemma {:induction false} RunTraced(states: seq<State>, steps: seq<Step>, i: nat, fd: nat)
    requires IsRun(states, steps) && i < |states|
    ensures Traced(states[i], fd)
    decreases i
  {
    if i > 0 {
      hide Inv, Traced, Next, Enabled;
      RunTraced(states, steps, i - 1, fd);
      RunKeeps(states, steps, i - 1);
      TracedStep(states[i - 1], steps[i - 1], fd);
    }
  }

  /** While all is in order, a close is in time exactly when the connection was announced and no close reported. */
  lemma InTimeMeans(s: State, fd: nat)
    requires Inv(s) && Traced(s, fd) && Orderly(s.log, fd)
    ensures InTime(s, fd) <==> Connected(fd) in s.log && CloseReported(fd) !in s.log
  {
    hide Orderly;
    assert CloseReported(fd) in s.log <==> CloseReported(fd) in multiset(s.log);
    assert Erased(fd) in s.log <==> Erased(fd) in multiset(s.log);
    if fd in s.sessions {
      Known(s, fd);
    }
    hide Inv;
  }

  lemma OrderlyStep(s: State, step: Step, fd: nat)
    requires Inv(s) && Traced(s, fd) && Enabled(s, step)
    ensures Orderly(Next(s, step).log, fd) <==> Orderly(s.log, fd) && (step == ReportClose(fd) ==> InTime(s, fd))
  {
    hide Orderly;
    var e := Next(s, step).log[|s.log|];
    assert Next(s, step).log == s.log + [e];
    OrderlyNote(s.log, e, fd);
    if Orderly(s.log, fd) {
      InTimeMeans(s, fd);
    }
    hide Inv, Traced, InTime, Enabled;
  }

  lemma {:induction false} OrderlyUpTo(states: seq<State>, steps: seq<Step>, i: nat, fd: nat)
    requires IsRun(states, steps) && i < |states|
    ensures Orderly(states[i].log, fd) <==>
            forall k :: 0 <= k < i && steps[k] == ReportClose(fd) ==> InTime(states[k], fd)
    decreases i
  {
    hide Inv, Next, InTime, Enabled, Traced;
    if i > 0 {
      hide Orderly;
      OrderlyUpTo(states, steps, i - 1, fd);
      RunTraced(states, steps, i - 1, fd);
      RunKeeps(states, steps, i - 1);
      OrderlyStep(states[i - 1], steps[i - 1], fd);
    }
  }

  /**
   In every run, the service hears of the end of a descriptor at most once and after its connection exactly when each
   close of it began while its session was in the table and nobody else was between entering it and announcing it, or
   between reporting its close and erasing it.
   */
  lemma ReportsInOrder(states: seq<State>, steps: seq<Step>, fd: nat)
    requires IsRun(states, steps)
    ensures Orderly(states[|steps|].log, fd) <==>
            forall k :: 0 <= k < |steps| && steps[k] == ReportClose(fd) ==> InTime(states[k], fd)
  {
    OrderlyUpTo(states, steps, |steps|, fd);
  }

  /** Closing a descriptor nobody has: two events, and every report is matched by an erasure again. */
  lemma EmptyClose(s: State, fd: nat) returns (s1: State, s2: State)
    requires fd !in s.sessions && multiset(s.log)[Erased(fd)] == multiset(s.log)[CloseReported(fd)]
    ensures s1 == Next(s, ReportClose(fd)) && Enabled(s1, Erase(fd)) && s2 == Next(s1, Erase(fd))
    ensures s2 == s.(log := s.log + [CloseReported(fd), Erased(fd)])
    ensures multiset(s2.log)[CloseReported(fd)] == multiset(s.log)[CloseReported(fd)] + 1
    ensures multiset(s2.log)[Erased(fd)] == multiset(s2.log)[CloseReported(fd)]
  {
    s1 := Next(s, ReportClose(fd));
    s2 := Next(s1, Erase(fd));
    assert s2.log == s.log + [CloseReported(fd), Erased(fd)];
    assert s.sessions - {fd} == s.sessions;
  }

  lemma RunThen(states: seq<State>, steps: seq<Step>, step: Step, s: State)
    requires IsRun(states, steps) && Enabled(states[|steps|], step) && s == Next(states[|steps|], step)
    ensures IsRun(states + [s], steps + [step])
  {
    hide Enabled, Next;
  }

  /**
   Unlike the websocket server this one reports the close of a descriptor it does not know, as often as it is asked.
   */
  lemma {:induction false} CloseOfNobody(fd: nat, times: nat) returns (states: seq<State>, steps: seq<Step>)
    ensures IsRun(states, steps)
    ensures var last := states[|steps|];
            && last.sessions == map[] && |last.log| == 2 * times
            && multiset(last.log)[CloseReported(fd)] == multiset(last.log)[Erased(fd)] == times
    decreases times
  {
    if times == 0 {
      states, steps := [State(map[], 1, [])], [];
    } else {
      hide Enabled, Next, IsRun;
      states, steps := CloseOfNobody(fd, times - 1);
      RunLength(states, steps);
      var s := states[|steps|];
      var s1, s2 := EmptyClose(s, fd);
      AnyReport(s, fd);
      RunThen(states, steps, ReportClose(fd), s1);
      RunThen(states + [s1], steps + [ReportClose(fd)], Erase(fd), s2);
      states, steps := states + [s1] + [s2], steps + [ReportClose(fd)] + [Erase(fd)];
    }
  }

  lemma RunLength(states: seq<State>, steps: seq<Step>)
    requires IsRun(states, steps)
    ensures |states| == |steps| + 1
  {
  }

  lemma AnyReport(s: State, fd: nat)
    ensures Enabled(s, ReportClose(fd))
  {
  }

  class TcpServer {
    var sessions: map<nat, Session>
    var autoId: nat
    var log: seq<Event>

    function View(): State
      reads this
    {
      State(sessions, autoId, log)
    }

    constructor ()
      ensures View() == State(map[], 1, [])
    {
      sessions, autoId, log := map[], 1, [];
    }

    /** Up to the release of the lock; then the connect callback. */
    method OnAcceptor(session: Session) returns (fd: nat)
      modifies this
      ensures fd == old(autoId) && View() == Next(Next(old(View()), Accept(session)), Announce(fd))
    {
      fd := autoId;
      autoId := autoId + 1;
      if fd !in sessions {
        sessions := sessions[fd := session];
      }
      log := log + [Accepted(fd, session)];
      log := log + [Connected(fd)];
    }

    method Close(fd: nat)
      modifies this
      ensures View() == Next(Next(old(View()), ReportClose(fd)), Erase(fd))
    {
      log := log + [CloseReported(fd)];
      if fd in sessions {
        sessions := sessions - {fd};
      }
      log := log + [Erased(fd)];
    }

    /** The session the data goes to, outside the lock; None when send reports failure. */
    method Send(fd: nat) returns (session: Option<Session>)
      ensures session.Some? <==> fd in sessions
      ensures session.Some? ==> session.value == sessions[fd]
    {
      if fd !in sessions {
        return None;
      }
      session := Some(sessions[fd]);
    }
  }
}
