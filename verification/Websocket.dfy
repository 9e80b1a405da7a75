/**
 The session tables of a websocket server (src/websocket/server/websocketServer.cpp). Each socket has a thread of its
 own that reports its events one after another; the threads interleave between the lock operations. `at` says how far
 each thread is; `trace` records the callbacks.
 */
module Websocket {
  import opened Basics

  /** A socket is known by its address, which may be used again after a close. */
  type Socket = nat

  /** What a socket's thread is about to do. */
  datatype Phase = Closed | Numbered(fd: nat) | Listed(fd: nat) | Open | Found(fd: nat, data: Bytes)

  /** The callbacks, with the socket on whose behalf they were made. */
  datatype Event = Opened(fd: nat, socket: Socket) | Message(fd: nat, socket: Socket, data: Bytes)
    | Gone(fd: nat, socket: Socket)

  datatype State = State(
    sessions: map<nat, Socket>, reverse: map<Socket, nat>, autoId: nat, at: map<Socket, Phase>, trace: seq<Event>)

  function PhaseOf(s: State, socket: Socket): Phase {
    if socket in s.at then s.at[socket] else Closed
  }

  /** std::map::insert leaves an existing entry alone. */
  function Insert(m: map<nat, nat>, k: nat, v: nat): map<nat, nat> {
    if k in m then m else m[k := v]
  }

  function Move(s: State, socket: Socket, phase: Phase): State {
    s.(at := s.at[socket := phase])
  }

  function Note(s: State, e: Event): State {
    s.(trace := s.trace + [e])
  }

  // ---------------------------------------------------------------- the steps of the event handler

  datatype Step =
    | TakeFd(socket: Socket)
    | Enter(socket: Socket)
    | Announce(socket: Socket)
    | Lookup(socket: Socket, data: Bytes)
    | Forward(socket: Socket)
    | Leave(socket: Socket)

  /**
   A socket opens only when closed, and reports messages and its close only when open, or when the server never knew
   it.
   */
  predicate Enabled(s: State, step: Step) {
    match step
    case TakeFd(socket) => PhaseOf(s, socket).Closed?
    case Enter(socket) => PhaseOf(s, socket).Numbered?
    case Announce(socket) => PhaseOf(s, socket).Listed?
    case Lookup(socket, _) => PhaseOf(s, socket).Open? || PhaseOf(s, socket).Closed?
    case Forward(socket) => PhaseOf(s, socket).Found?
    case Leave(socket) => PhaseOf(s, socket).Open? || PhaseOf(s, socket).Closed?
  }

  function Next(s: State, step: Step): State
    requires Enabled(s, step)
  {
    var socket, phase := step.socket, PhaseOf(s, step.socket);
    match step
    case TakeFd(_) => Move(s.(autoId := s.autoId + 1), socket, Numbered(s.autoId))
    case Enter(_) =>
      Move(s.(sessions := Insert(s.sessions, phase.fd, socket), reverse := Insert(s.reverse, socket, phase.fd)),
        socket, Listed(phase.fd))
    case Announce(_) => Move(Note(s, Opened(phase.fd, socket)), socket, Open)
    case Lookup(_, data) => if socket in s.reverse then Move(s, socket, Found(s.reverse[socket], data)) else s
    case Forward(_) => Move(Note(s, Message(phase.fd, socket, phase.data)), socket, Open)
    case Leave(_) =>
      if socket in s.reverse then
        var fd := s.reverse[socket];
        Move(Note(s, Gone(fd, socket)).(sessions := s.sessions - {fd}, reverse := s.reverse - {socket}), socket, Closed)
      else s
  }

  /** Any interleaving of any number of sockets, within one listen. */
  ghost predicate IsRun(states: seq<State>, steps: seq<Step>) {
    && |states| == |steps| + 1 && states[0] == State(map[], map[], 1, map[], [])
    && forall i :: 0 <= i < |steps| ==> Enabled(states[i], steps[i]) && states[i + 1] == Next(states[i], steps[i])
  }

  // ---------------------------------------------------------------- the traces of one fd

  /** Where a descriptor is in its life, or Broken when its callbacks are out of order. */
  datatype Life = Unborn | Alive(socket: Socket) | Dead | Broken

  function After(life: Life, e: Event): Life {
    match e
    case Opened(_, socket) => if life.Unborn? then Alive(socket) else Broken
    case Message(_, socket, _) => if life == Alive(socket) then life else Broken
    case Gone(_, socket) => if life == Alive(socket) then Dead else Broken
  }

  function LifeOf(trace: seq<Event>, fd: nat): Life {
    if trace == [] then Unborn
    else
      var life, e := LifeOf(trace[..|trace| - 1], fd), trace[|trace| - 1];
      if e.fd == fd then After(life, e) else life
  }

  lemma LifeNote(trace: seq<Event>, e: Event, fd: nat)
    ensures LifeOf(trace + [e], fd) == if e.fd == fd then After(LifeOf(trace, fd), e) else LifeOf(trace, fd)
  {
    assert (trace + [e])[..|trace|] == trace;
  }

  // ---------------------------------------------------------------- the invariant

  ghost predicate Inverse(sessions: map<nat, Socket>, reverse: map<Socket, nat>) {
    && (forall fd :: fd in sessions ==> sessions[fd] in reverse && reverse[sessions[fd]] == fd)
    && (forall socket :: socket in reverse ==> reverse[socket] in sessions && sessions[reverse[socket]] == socket)
  }

  /** A thread's phase agrees with the tables. */
  ghost predicate PhaseOk(s: State, socket: Socket) {
    match PhaseOf(s, socket)
    case Closed => socket !in s.reverse
    case Numbered(fd) => socket !in s.reverse && fd !in s.sessions && 0 < fd < s.autoId && LifeOf(s.trace, fd).Unborn?
    case Listed(fd) => socket in s.reverse && s.reverse[socket] == fd && LifeOf(s.trace, fd).Unborn?
    case Open => socket in s.reverse && LifeOf(s.trace, s.reverse[socket]) == Alive(socket)
    case Found(fd, _) => socket in s.reverse && s.reverse[socket] == fd && LifeOf(s.trace, fd) == Alive(socket)
  }

  ghost predicate Inv(s: State) {
    && Inverse(s.sessions, s.reverse)
    && s.autoId > 0 && (forall fd :: fd in s.sessions ==> 0 < fd < s.autoId)
    && (forall socket: Socket :: PhaseOk(s, socket))
    && (forall a: Socket, b: Socket :: a != b && PhaseOf(s, a).Numbered? && PhaseOf(s, b).Numbered? ==>
        PhaseOf(s, a).fd != PhaseOf(s, b).fd)
    && (forall fd: nat :: fd >= s.autoId ==> LifeOf(s.trace, fd).Unborn?)
    && (forall fd: nat :: LifeOf(s.trace, fd) != Broken)
  }

  /** The callback a step makes. */
  function Callback(s: State, step: Step): Option<Event>
    requires Enabled(s, step)
  {
    var socket, phase := step.socket, PhaseOf(s, step.socket);
    match step
    case Announce(_) => Some(Opened(phase.fd, socket))
    case Forward(_) => Some(Message(phase.fd, socket, phase.data))
    case Leave(_) => if socket in s.reverse then Some(Gone(s.reverse[socket], socket)) else None
    case _ => None
  }

  lemma NextLife(s: State, step: Step, fd: nat)
    requires Enabled(s, step)
    ensures LifeOf(Next(s, step).trace, fd) ==
            var e := Callback(s, step);
            if e.Some? && e.value.fd == fd then After(LifeOf(s.trace, fd), e.value) else LifeOf(s.trace, fd)
  {
    var e := Callback(s, step);
    if e.Some? {
      LifeNote(s.trace, e.value, fd);
    }
  }

  lemma PhaseKeeps(s: State, step: Step, socket: Socket)
    requires Inv(s) && Enabled(s, step)
    ensures PhaseOk(Next(s, step), socket)
  {
    hide LifeOf;
    var mine, other := PhaseOf(s, step.socket), PhaseOf(s, socket);
    assert PhaseOk(s, step.socket) && PhaseOk(s, socket);
    NextLife(s, step, s.autoId);
    if other.Numbered? {
      NextLife(s, step, other.fd);
    }
    if socket in s.reverse {
      NextLife(s, step, s.reverse[socket]);
    }
    if mine.Numbered? {
      NextLife(s, step, mine.fd);
    }
  }

  lemma LivesKeep(s: State, step: Step, fd: nat)
    requires Inv(s) && Enabled(s, step)
    ensures LifeOf(Next(s, step).trace, fd) != Broken
    ensures fd >= Next(s, step).autoId ==> LifeOf(Next(s, step).trace, fd).Unborn?
  {
    hide LifeOf;
    NextLife(s, step, fd);
    assert PhaseOk(s, step.socket);
  }

  lemma TablesKeep(s: State, step: Step)
    requires Inv(s) && Enabled(s, step)
    ensures var s' := Next(s, step);
            Inverse(s'.sessions, s'.reverse) && s'.autoId > 0 && forall fd :: fd in s'.sessions ==> 0 < fd < s'.autoId
  {
    hide LifeOf;
    assert PhaseOk(s, step.socket);
  }

  lemma NumbersKeep(s: State, step: Step, a: Socket, b: Socket)
    requires Inv(s) && Enabled(s, step) && a != b && PhaseOf(Next(s, step), a).Numbered?
        && PhaseOf(Next(s, step), b).Numbered?
    ensures PhaseOf(Next(s, step), a).fd != PhaseOf(Next(s, step), b).fd
  {
    hide LifeOf, Inverse;
    assert PhaseOk(s, a) && PhaseOk(s, b);
  }

  lemma StepKeeps(s: State, step: Step)
    requires Inv(s) && Enabled(s, step)
    ensures Inv(Next(s, step))
  {
    hide LifeOf, PhaseOk, Inverse, Next, PhaseOf;
    var s' := Next(s, step);
    TablesKeep(s, step);
    forall fd: nat ensures LifeOf(s'.trace, fd) != Broken && (fd >= s'.autoId ==> LifeOf(s'.trace, fd).Unborn?) {
      LivesKeep(s, step, fd);
    }
    forall a, b: Socket | a != b && PhaseOf(s', a).Numbered?
        && PhaseOf(s', b).Numbered? ensures PhaseOf(s', a).fd != PhaseOf(s', b).fd {
      NumbersKeep(s, step, a, b);
    }
    forall socket: Socket ensures PhaseOk(s', socket) {
      PhaseKeeps(s, step, socket);
    }
  }

  lemma {:induction false} RunKeeps(states: seq<State>, steps: seq<Step>, i: nat)
    requires IsRun(states, steps) && i < |states|
    ensures Inv(states[i])
    decreases i
  {
    if i > 0 {
      RunKeeps(states, steps, i - 1);
      hide Inv, Next, Enabled;
      StepKeeps(states[i - 1], steps[i - 1]);
    }
  }

  // ---------------------------------------------------------------- what a run promises

  /** The callbacks about one descriptor. */
  function About(trace: seq<Event>, fd: nat): seq<Event> {
    if trace == [] then []
    else
      var rest := About(trace[..|trace| - 1], fd);
      if trace[|trace| - 1].fd == fd then rest + [trace[|trace| - 1]] else rest
  }

  predicate IsMessage(e: Event, fd: nat, socket: Socket) {
    e.Message? && e.fd == fd && e.socket == socket
  }

  /** One open, then messages of the same socket, then at most one close. */
  ghost predicate Orderly(word: seq<Event>, fd: nat, socket: Socket) {
    && word != [] && word[0] == Opened(fd, socket)
    && (forall i :: 0 < i < |word| - 1 ==> IsMessage(word[i], fd, socket))
    && (|word| > 1 ==> word[|word| - 1] == Gone(fd, socket) || IsMessage(word[|word| - 1], fd, socket))
  }

  lemma {:induction false} Language(trace: seq<Event>, fd: nat) returns (socket: Socket)
    requires LifeOf(trace, fd) != Broken
    ensures LifeOf(trace, fd).Unborn? <==> About(trace, fd) == []
    ensures LifeOf(trace, fd).Alive? ==> LifeOf(trace, fd) == Alive(socket)
    ensures About(trace, fd) != [] ==> Orderly(About(trace, fd), fd, socket)
    ensures LifeOf(trace, fd).Dead? <==> About(trace, fd) != [] && About(trace, fd)[|About(trace, fd)| - 1].Gone?
    decreases |trace|
  {
    if trace == [] {
      socket := 0;
    } else {
      var rest, e := trace[..|trace| - 1], trace[|trace| - 1];
      socket := Language(rest, fd);
      if e.fd == fd && e.Opened? {
        socket := e.socket;
      }
    }
  }

  /**
   In every reachable state the two tables are each other's inverse, descriptors not yet given out have no history, and
   the callbacks about any one descriptor are one open, then messages of that same socket, then at most one close.
   */
  lemma SessionTables(states: seq<State>, steps: seq<Step>, i: nat, fd: nat)
    requires IsRun(states, steps) && i < |states|
    ensures Inverse(states[i].sessions, states[i].reverse)
    ensures fd >= states[i].autoId ==> fd !in states[i].sessions && About(states[i].trace, fd) == []
    ensures About(states[i].trace, fd) == [] || exists socket :: Orderly(About(states[i].trace, fd), fd, socket)
  {
    hide Orderly, IsRun;
    RunKeeps(states, steps, i);
    var socket := Language(states[i].trace, fd);
  }

  /** Descriptors are fresh: no two opens announce the same one. */
  lemma FreshFds(states: seq<State>, steps: seq<Step>, i: nat, a: nat, b: nat)
    requires IsRun(states, steps) && i < |states| && a < b < |states[i].trace|
    requires states[i].trace[a].Opened? && states[i].trace[b].Opened?
    ensures states[i].trace[a].fd != states[i].trace[b].fd
  {
    hide IsRun;
    RunKeeps(states, steps, i);
    if states[i].trace[a].fd == states[i].trace[b].fd {
      OpenedTwice(states[i].trace, states[i].trace[a].fd, a, b);
    }
  }

  lemma {:induction false} OpenedTwice(trace: seq<Event>, fd: nat, a: nat, b: nat)
    requires a < b < |trace| && trace[a].Opened? && trace[b].Opened? && trace[a].fd == fd && trace[b].fd == fd
    ensures LifeOf(trace, fd).Broken?
    decreases |trace|
  {
    var rest := trace[..|trace| - 1];
    if b < |trace| - 1 {
      OpenedTwice(rest, fd, a, b);
    } else {
      BornOnce(rest, fd, a);
    }
  }

  lemma {:induction false} BornOnce(trace: seq<Event>, fd: nat, a: nat)
    requires a < |trace| && trace[a].fd == fd
    ensures !LifeOf(trace, fd).Unborn?
    decreases |trace|
  {
    if a < |trace| - 1 {
      BornOnce(trace[..|trace| - 1], fd, a);
    }
  }

  // ---------------------------------------------------------------- sending

  /** WebsocketServer::send finds the socket under the lock. */
  function SendTo(s: State, fd: nat): Option<Socket> {
    if fd in s.sessions then Some(s.sessions[fd]) else None
  }

  /** What is sent to an announced descriptor goes to the socket it was announced for, until that has closed. */
  lemma SendReaches(states: seq<State>, steps: seq<Step>, i: nat, fd: nat)
    requires IsRun(states, steps) && i < |states| && About(states[i].trace, fd) != []
    ensures var word := About(states[i].trace, fd);
            SendTo(states[i], fd) == if word[|word| - 1].Gone? then None else Some(word[0].socket)
  {
    var s := states[i];
    RunKeeps(states, steps, i);
    hide IsRun, Next, Enabled;
    var socket := Language(s.trace, fd);
    if fd in s.sessions {
      assert PhaseOk(s, s.sessions[fd]);
    }
    AliveListed(states, steps, i, fd);
  }

  ghost predicate Listed'(s: State, fd: nat) {
    LifeOf(s.trace, fd).Alive? ==> fd in s.sessions
  }

  lemma {:induction false} AliveListed(states: seq<State>, steps: seq<Step>, i: nat, fd: nat)
    requires IsRun(states, steps) && i < |states|
    ensures Listed'(states[i], fd)
    decreases i
  {
    if i > 0 {
      var s, step := states[i - 1], steps[i - 1];
      AliveListed(states, steps, i - 1, fd);
      RunKeeps(states, steps, i - 1);
      NextLife(s, step, fd);
      hide LifeOf;
      assert PhaseOk(s, step.socket);
    }
  }

  /** An open keeps the tables inverse exactly when its socket is not in them already. */
  lemma OpenExactly(sessions: map<nat, Socket>, reverse: map<Socket, nat>, fd: nat, socket: Socket)
    requires Inverse(sessions, reverse) && fd !in sessions
    ensures Inverse(Insert(sessions, fd, socket), Insert(reverse, socket, fd)) <==> socket !in reverse
  {
    var s', r' := Insert(sessions, fd, socket), Insert(reverse, socket, fd);
    if socket in reverse {
      assert fd in s' && s'[fd] == socket && r'[socket] == reverse[socket] != fd;
    }
  }

  // ---------------------------------------------------------------- everything is reported

  /** What happens to a socket, or is reported of it. */
  datatype Happening = Opens | Says(data: Bytes) | Closes

  /** What the step brings for the socket; messages and closes of a socket the server never knew bring nothing. */
  function BroughtBy(s: State, step: Step, socket: Socket): seq<Happening> {
    match step
    case TakeFd(x) => if x == socket then [Opens] else []
    case Lookup(x, data) => if x == socket && PhaseOf(s, x).Open? then [Says(data)] else []
    case Leave(x) => if x == socket && PhaseOf(s, x).Open? then [Closes] else []
    case _ => []
  }

  function Brought(states: seq<State>, steps: seq<Step>, socket: Socket, i: nat): seq<Happening>
    requires |states| == |steps| + 1 && i <= |steps|
    decreases i
  {
    if i == 0 then [] else Brought(states, steps, socket, i - 1) + BroughtBy(states[i - 1], steps[i - 1], socket)
  }

  function ReportOf(e: Event, socket: Socket): seq<Happening> {
    if e.socket != socket then []
    else match e
      case Opened(_, _) => [Opens]
      case Message(_, _, data) => [Says(data)]
      case Gone(_, _) => [Closes]
  }

  /** The callbacks made on behalf of the socket. */
  function Reports(trace: seq<Event>, socket: Socket): seq<Happening>
    decreases |trace|
  {
    if trace == [] then [] else Reports(trace[..|trace| - 1], socket) + ReportOf(trace[|trace| - 1], socket)
  }

  /** What its thread is still about to report. */
  function Outstanding(phase: Phase): seq<Happening> {
    match phase
    case Numbered(_) => [Opens]
    case Listed(_) => [Opens]
    case Found(_, data) => [Says(data)]
    case _ => []
  }

  lemma ReportsNote(trace: seq<Event>, e: Event, socket: Socket)
    ensures Reports(trace + [e], socket) == Reports(trace, socket) + ReportOf(e, socket)
  {
    assert (trace + [e])[..|trace|] == trace;
  }

  lemma ReportStep(s: State, step: Step, socket: Socket)
    requires Inv(s) && Enabled(s, step)
    ensures var s' := Next(s, step);
            Outstanding(PhaseOf(s, socket)) + BroughtBy(s, step, socket) ==
              (if s'.trace == s.trace then [] else ReportOf(s'.trace[|s'.trace| - 1], socket))
                + Outstanding(PhaseOf(s', socket))
    ensures var s' := Next(s, step);
            s'.trace == s.trace || exists e :: s'.trace == s.trace + [e]
  {
    assert PhaseOk(s, step.socket);
    assert PhaseOk(s, socket);
    hide Inv, PhaseOk, LifeOf;
  }

  lemma Carried(a: seq<Happening>, b: seq<Happening>, x: seq<Happening>, y: seq<Happening>, z: seq<Happening>)
    requires b + x == y + z
    ensures (a + b) + x == (a + y) + z
  {
    assert (a + b) + x == a + (b + x) == a + (y + z);
  }

  /**
   Nothing is lost between a socket and the service: in every run, what happened to a socket is what was reported of it,
   in order and with the same data, followed by the one thing its thread may still be about to report.
   */
  lemma {:induction false} EverythingReported(states: seq<State>, steps: seq<Step>, socket: Socket, i: nat)
    requires IsRun(states, steps) && i <= |steps|
    ensures Brought(states, steps, socket, i) ==
            Reports(states[i].trace, socket) + Outstanding(PhaseOf(states[i], socket))
    decreases i
  {
    if i > 0 {
      var s, step := states[i - 1], steps[i - 1];
      var s' := Next(s, step);
      RunKeeps(states, steps, i - 1);
      EverythingReported(states, steps, socket, i - 1);
      hide Inv, Next, BroughtBy, Outstanding, ReportOf;
      ReportStep(s, step, socket);
      var more := if s'.trace == s.trace then [] else ReportOf(s'.trace[|s'.trace| - 1], socket);
      if s'.trace != s.trace {
        var e :| s'.trace == s.trace + [e];
        ReportsNote(s.trace, e, socket);
      }
      Carried(Reports(s.trace, socket), Outstanding(PhaseOf(s, socket)), BroughtBy(s, step, socket), more,
              Outstanding(PhaseOf(s', socket)));
    }
  }

  // ---------------------------------------------------------------- the mutable server

  class WebsocketServer {
    var sessions: map<nat, Socket>
    var reverse: map<Socket, nat>
    var autoId: nat
    // How far the thread of each socket is, and the callbacks so far.
    var at: map<Socket, Phase>
    var trace: seq<Event>

    function View(): State
      reads this
    {
      State(sessions, reverse, autoId, at, trace)
    }

    constructor ()
      ensures View() == State(map[], map[], 1, map[], [])
    {
      sessions, reverse, autoId, at, trace := map[], map[], 1, map[], [];
    }

    method NewFd(socket: Socket) returns (fd: nat)
      requires Enabled(View(), TakeFd(socket))
      modifies this
      ensures fd == old(autoId) && View() == Next(old(View()), TakeFd(socket))
    {
      fd := autoId;
      autoId := autoId + 1;
      at := at[socket := Numbered(fd)];
    }

    method Register(socket: Socket, fd: nat)
      requires PhaseOf(View(), socket) == Numbered(fd)
      modifies this
      ensures View() == Next(old(View()), Enter(socket))
    {
      if fd !in sessions {
        sessions := sessions[fd := socket];
      }
      if socket !in reverse {
        reverse := reverse[socket := fd];
      }
      at := at[socket := Listed(fd)];
    }

    method OnConnect(socket: Socket, fd: nat)
      requires PhaseOf(View(), socket) == Listed(fd)
      modifies this
      ensures View() == Next(old(View()), Announce(socket))
    {
      trace := trace + [Opened(fd, socket)];
      at := at[socket := Open];
    }

    method FindFd(socket: Socket, data: Bytes) returns (fd: Option<nat>)
      requires Enabled(View(), Lookup(socket, data))
      modifies this
      ensures fd == if socket in old(reverse) then Some(old(reverse)[socket]) else None
      ensures View() == Next(old(View()), Lookup(socket, data))
    {
      if socket !in reverse {
        return None;
      }
      fd := Some(reverse[socket]);
      at := at[socket := Found(fd.value, data)];
    }

    method OnMsg(socket: Socket, fd: nat, data: Bytes)
      requires PhaseOf(View(), socket) == Found(fd, data)
      modifies this
      ensures View() == Next(old(View()), Forward(socket))
    {
      trace := trace + [Message(fd, socket, data)];
      at := at[socket := Open];
    }

    /** The Open case of onServerMsg when no other thread comes in between. */
    method OnOpen(socket: Socket)
      requires Inv(View()) && Enabled(View(), TakeFd(socket))
      modifies this
      ensures Inv(View()) && reverse == old(reverse)[socket := old(autoId)]
          && sessions == old(sessions)[old(autoId) := socket]
      ensures trace == old(trace) + [Opened(old(autoId), socket)] && autoId == old(autoId) + 1
    {
      assert PhaseOk(View(), socket);
      StepKeeps(View(), TakeFd(socket));
      var fd := NewFd(socket);
      StepKeeps(View(), Enter(socket));
      Register(socket, fd);
      StepKeeps(View(), Announce(socket));
      OnConnect(socket, fd);
    }

    /** The Message case. */
    method OnMessage(socket: Socket, data: Bytes)
      requires Inv(View()) && Enabled(View(), Lookup(socket, data))
      modifies this
      ensures Inv(View()) && sessions == old(sessions) && reverse == old(reverse)
      ensures trace == old(trace) + if socket in reverse then [Message(reverse[socket], socket, data)] else []
    {
      StepKeeps(View(), Lookup(socket, data));
      var fd := FindFd(socket, data);
      if fd.Some? {
        StepKeeps(View(), Forward(socket));
        OnMsg(socket, fd.value, data);
      }
    }

    /** The Close case: all of it, callback included, under the lock. */
    method OnClose(socket: Socket)
      requires Inv(View()) && Enabled(View(), Leave(socket))
      modifies this
      ensures Inv(View()) && View() == Next(old(View()), Leave(socket))
    {
      StepKeeps(View(), Leave(socket));
      if socket !in reverse {
        return;
      }
      var fd := reverse[socket];
      trace := trace + [Gone(fd, socket)];
      if fd in sessions {
        sessions := sessions - {fd};
      }
      reverse := reverse - {socket};
      at := at[socket := Closed];
    }

    /** The socket that gets the data; None when the descriptor is unknown and send reports failure. */
    method Send(fd: nat) returns (socket: Option<Socket>)
      ensures socket == SendTo(View(), fd)
    {
      if fd !in sessions {
        return None;
      }
      socket := Some(sessions[fd]);
    }
  }
}
