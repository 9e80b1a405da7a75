/**
 The locks of a node. Every thread runs procedures one after another; a procedure is the sequence of lock operations
 on the path it takes, and the path is chosen by the procedure's arguments. A std::mutex taken with try_lock in a loop
 makes its thread wait until the mutex is free, and a thread that already holds it waits for ever.
 */
module Locks {
  import opened Basics

  /** One constructor per mutex member; numbered where every object of the class has its own. */
  datatype Lock =
    | TcpServers
    | TcpServer(server: nat)
    | WebsocketServer(server: nat)
    | Services
    | Workers
    | Mailbox(service: nat)
    | Pool
    | PreDestroy
    | FreeServices

  datatype Op = Acquire(lock: Lock) | Release(lock: Lock)

  /** A lock may be waited for only while all locks held rank lower. */
  function Rank(l: Lock): nat {
    match l
    case TcpServers => 0
    case TcpServer(_) => 1
    case WebsocketServer(_) => 1
    case Services => 2
    case Workers => 3
    case Mailbox(_) => 3
    case Pool => 4
    case PreDestroy => 4
    case FreeServices => 4
  }

  // ---------------------------------------------------------------- the procedures of the program

  /** What delivering a message comes to: the target's mailbox, unless there is no such service or it has stopped. */
  type Target = Option<nat>

  /** `released` tells whether ServiceMsgPool::pop gives its lock back; as written it does not. */
  datatype Procedure =
    | Send(target: Target)
    | GetService
    | NewService(tries: nat)
    | DestroyService(found: bool, stops: Option<nat>)
    | PollService(service: nat, messages: nat)
    | PollManager
    | TakeFree
    | ReturnFree
    | CloseAll(targets: seq<Target>)
    | TcpLookup
    | TcpAccept(server: nat, callback: Option<Target>)
    | TcpReceive(callback: Option<Target>)
    | TcpSend(server: nat)
    | TcpClose(server: nat, callback: Option<Target>)
    | TcpSendFails(server: nat, known: bool, callback: Option<Target>)
    | WebsocketOpen(server: nat, callback: Option<Target>)
    | WebsocketMessage(server: nat, known: bool, callback: Option<Target>)
    | WebsocketClose(server: nat, known: bool, callback: Option<Target>)
    | WebsocketSend(server: nat)

  function Within(l: Lock, body: seq<Op>): seq<Op> {
    [Acquire(l)] + body + [Release(l)]
  }

  function Brief(l: Lock): seq<Op> {
    Within(l, [])
  }

  function Pop(released: bool): seq<Op> {
    if released then Brief(Pool) else [Acquire(Pool)]
  }

  function Times(n: nat, body: seq<Op>): seq<Op> {
    if n == 0 then [] else body + Times(n - 1, body)
  }

  /** A message object is fetched, the target looked up, and the message queued. */
  function Deliver(released: bool, target: Target): seq<Op> {
    Pop(released) + Brief(Services) + (if target.Some? then Brief(Mailbox(target.value)) else [])
  }

  function DeliverAll(released: bool, targets: seq<Target>): seq<Op> {
    if targets == [] then [] else Deliver(released, targets[0]) + DeliverAll(released, targets[1..])
  }

  function Callback(released: bool, callback: Option<Target>): seq<Op> {
    if callback.Some? then Deliver(released, callback.value) else []
  }

  /** destoryService gives up the service map before the stack it took last. */
  function Destroy(stops: Option<nat>): seq<Op> {
    [Acquire(Services)] + Brief(Workers) + (if stops.Some? then Brief(Mailbox(stops.value)) else [])
    + [Acquire(PreDestroy), Release(Services), Release(PreDestroy)]
  }

  function Code(released: bool, p: Procedure): seq<Op> {
    match p
    case Send(target) => Deliver(released, target)
    case GetService => Brief(Services)
    case NewService(tries) => Times(tries, Brief(Workers)) + Brief(Services)
    case DestroyService(found, stops) => if found then Destroy(stops) else Brief(Services)
    case PollService(service, messages) => Within(Mailbox(service), Times(messages, Brief(Pool)))
    case PollManager => Brief(PreDestroy)
    case TakeFree => Brief(FreeServices)
    case ReturnFree => Brief(FreeServices)
    case CloseAll(targets) => Brief(Services) + DeliverAll(released, targets)
    case TcpLookup => Brief(TcpServers)
    case TcpAccept(server, callback) => Brief(TcpServer(server)) + Callback(released, callback)
    case TcpReceive(callback) => Brief(TcpServers) + Callback(released, callback)
    case TcpSend(server) => Brief(TcpServers) + Brief(TcpServer(server))
    case TcpClose(server, callback) => Brief(TcpServers) + Callback(released, callback) + Brief(TcpServer(server))
    case TcpSendFails(server, known, callback) =>
      Brief(TcpServers) + Brief(TcpServer(server))
      + Within(TcpServers, if known then Callback(released, callback) + Brief(TcpServer(server)) else [])
    case WebsocketOpen(server, callback) => Brief(WebsocketServer(server)) + Callback(released, callback)
    case WebsocketMessage(server, known, callback) =>
      Brief(WebsocketServer(server)) + (if known then Callback(released, callback) else [])
    case WebsocketClose(server, known, callback) =>
      Within(WebsocketServer(server), if known then Callback(released, callback) else [])
    case WebsocketSend(server) => Brief(WebsocketServer(server))
  }

  // ---------------------------------------------------------------- threads

  /** `now` is the procedure the thread runs or has run last. */
  datatype Thread = Thread(held: set<Lock>, rest: seq<Op>, now: Option<Procedure>)

  type State = seq<Thread>

  ghost predicate Free(s: State, l: Lock) {
    forall i :: 0 <= i < |s| ==> l !in s[i].held
  }

  /** A thread between procedures may start any; an acquisition waits until its lock is free. */
  ghost predicate Enabled(s: State, i: nat) {
    i < |s| && (s[i].rest == [] || s[i].rest[0].Release? || Free(s, s[i].rest[0].lock))
  }

  function After(t: Thread): Thread
    requires t.rest != []
  {
    var op := t.rest[0];
    Thread(if op.Acquire? then t.held + {op.lock} else t.held - {op.lock}, t.rest[1..], t.now)
  }

  ghost predicate Step(released: bool, s: State, s': State, i: nat) {
    && Enabled(s, i)
    && |s'| == |s| && (forall j :: 0 <= j < |s| && j != i ==> s'[j] == s[j])
    && if s[i].rest == [] then exists p :: s'[i] == Thread(s[i].held, Code(released, p), Some(p))
       else s'[i] == After(s[i])
  }

  /** A run: any number of threads that start idle, any procedures, any interleaving. */
  ghost predicate IsRun(released: bool, states: seq<State>, who: seq<nat>) {
    && |states| == |who| + 1
    && (forall i :: 0 <= i < |states[0]| ==> states[0][i] == Thread({}, [], None))
    && forall k :: 0 <= k < |who| ==> Step(released, states[k], states[k + 1], who[k])
  }

  // ---------------------------------------------------------------- the rank

  /** From `held` on, `ops` waits only for locks above all held ones, releases what it holds, and ends with nothing. */
  ghost predicate Ranked(held: set<Lock>, ops: seq<Op>)
    decreases |ops|
  {
    if ops == [] then held == {}
    else if ops[0].Acquire? then
      (forall h :: h in held ==> Rank(h) < Rank(ops[0].lock)) && Ranked(held + {ops[0].lock}, ops[1..])
    else ops[0].lock in held && Ranked(held - {ops[0].lock}, ops[1..])
  }

  /** `ops` can run anywhere above `bound` and gives back whatever it takes. */
  ghost predicate Neat(bound: nat, ops: seq<Op>) {
    forall held, next :: (forall h :: h in held ==> Rank(h) < bound) && Ranked(held, next) ==> Ranked(held, ops + next)
  }

  lemma {:induction false} NeatJoin(bound: nat, a: seq<Op>, b: seq<Op>)
    requires Neat(bound, a) && Neat(bound, b)
    ensures Neat(bound, a + b)
  {
    forall held, next | (forall h :: h in held ==> Rank(h) < bound) && Ranked(held, next)
      ensures Ranked(held, a + b + next)
    {
      assert a + b + next == a + (b + next);
    }
  }

  lemma {:induction false} NeatWithin(bound: nat, l: Lock, body: seq<Op>)
    requires bound <= Rank(l) && Neat(Rank(l) + 1, body)
    ensures Neat(bound, Within(l, body))
  {
    forall held, next | (forall h :: h in held ==> Rank(h) < bound) && Ranked(held, next)
      ensures Ranked(held, Within(l, body) + next)
    {
      var tail := [Release(l)] + next;
      assert tail[1..] == next && l !in held && held + {l} - {l} == held;
      assert Ranked(held + {l}, tail);
      assert (Within(l, body) + next)[1..] == body + tail;
    }
  }

  lemma NeatEmpty(bound: nat)
    ensures Neat(bound, [])
  {
    assert forall next: seq<Op> :: [] + next == next;
  }

  lemma NeatBrief(bound: nat, l: Lock)
    requires bound <= Rank(l)
    ensures Neat(bound, Brief(l))
  {
    NeatEmpty(Rank(l) + 1);
    NeatWithin(bound, l, []);
  }

  lemma {:induction false} NeatTimes(bound: nat, n: nat, body: seq<Op>)
    requires Neat(bound, body)
    ensures Neat(bound, Times(n, body))
    decreases n
  {
    hide Neat;
    if n == 0 {
      NeatEmpty(bound);
    } else {
      NeatTimes(bound, n - 1, body);
      NeatJoin(bound, body, Times(n - 1, body));
    }
  }

  lemma NeatDeliver(target: Target)
    ensures Neat(2, Deliver(true, target))
  {
    hide Neat;
    NeatBrief(2, Pool);
    NeatBrief(2, Services);
    NeatJoin(2, Pop(true), Brief(Services));
    if target.Some? {
      NeatBrief(2, Mailbox(target.value));
    } else {
      NeatEmpty(2);
    }
    NeatJoin(2, Pop(true) + Brief(Services), if target.Some? then Brief(Mailbox(target.value)) else []);
  }

  lemma NeatCallback(callback: Option<Target>)
    ensures Neat(2, Callback(true, callback))
  {
    hide Neat;
    if callback.Some? {
      NeatDeliver(callback.value);
    } else {
      NeatEmpty(2);
    }
  }

  lemma {:induction false} NeatDeliverAll(targets: seq<Target>)
    ensures Neat(2, DeliverAll(true, targets))
    decreases |targets|
  {
    hide Neat;
    if targets == [] {
      NeatEmpty(2);
    } else {
      NeatDeliver(targets[0]);
      NeatDeliverAll(targets[1..]);
      NeatJoin(2, Deliver(true, targets[0]), DeliverAll(true, targets[1..]));
    }
  }

  lemma NeatDown(bound: nat, ops: seq<Op>)
    requires Neat(bound, ops)
    ensures Neat(0, ops)
  {
  }

  lemma DestroyRanked(stops: Option<nat>)
    ensures Ranked({}, Destroy(stops))
  {
    var tail := [Acquire(PreDestroy), Release(Services), Release(PreDestroy)];
    assert tail[1..] == [Release(Services), Release(PreDestroy)] && tail[1..][1..] == [Release(PreDestroy)];
    assert {Services} + {PreDestroy} - {Services} == {PreDestroy};
    assert Ranked({PreDestroy}, [Release(PreDestroy)]);
    assert Ranked({Services} + {PreDestroy}, tail[1..]);
    assert Ranked({Services}, tail);
    var middle := if stops.Some? then Brief(Mailbox(stops.value)) else [];
    if stops.Some? {
      NeatBrief(3, Mailbox(stops.value));
    } else {
      NeatEmpty(3);
    }
    NeatBrief(3, Workers);
    assert Ranked({Services}, middle + tail);
    assert Ranked({Services}, Brief(Workers) + (middle + tail));
    assert Destroy(stops)[1..] == Brief(Workers) + (middle + tail);
    assert {} + {Services} == {Services};
  }

  lemma NeatRanked(ops: seq<Op>)
    requires Neat(0, ops)
    ensures Ranked({}, ops)
  {
    assert ops + [] == ops;
    assert Ranked({}, []);
  }

  /** Every path of every procedure takes locks in rank order and gives all of them back, once pop does. */
  lemma CodeRanked(p: Procedure)
    ensures Ranked({}, Code(true, p))
  {
    hide Ranked, Neat;
    if p.DestroyService? && p.found {
      DestroyRanked(p.stops);
    } else {
      CodeNeat(p);
      NeatRanked(Code(true, p));
    }
  }

  lemma CodeNeat(p: Procedure)
    requires !(p.DestroyService? && p.found)
    ensures Neat(0, Code(true, p))
  {
    assert Callback(true, None) == [];
    hide Neat, Callback, Deliver, DeliverAll;
    match p
    case Send(target) =>
      NeatDeliver(target);
      NeatDown(2, Deliver(true, target));
    case GetService => NeatBrief(0, Services);
    case NewService(tries) =>
      NeatBrief(0, Workers);
      NeatTimes(0, tries, Brief(Workers));
      NeatBrief(0, Services);
      NeatJoin(0, Times(tries, Brief(Workers)), Brief(Services));
    case DestroyService(found, stops) => NeatBrief(0, Services);
    case PollService(service, messages) =>
      NeatBrief(4, Pool);
      NeatTimes(4, messages, Brief(Pool));
      NeatWithin(0, Mailbox(service), Times(messages, Brief(Pool)));
    case PollManager => NeatBrief(0, PreDestroy);
    case TakeFree => NeatBrief(0, FreeServices);
    case ReturnFree => NeatBrief(0, FreeServices);
    case CloseAll(targets) =>
      NeatBrief(0, Services);
      NeatDeliverAll(targets);
      NeatDown(2, DeliverAll(true, targets));
      NeatJoin(0, Brief(Services), DeliverAll(true, targets));
    case TcpLookup => NeatBrief(0, TcpServers);
    case TcpAccept(server, callback) => ThenCallback(TcpServer(server), callback);
    case TcpReceive(callback) => ThenCallback(TcpServers, callback);
    case TcpSend(server) =>
      NeatBrief(0, TcpServers);
      NeatBrief(0, TcpServer(server));
      NeatJoin(0, Brief(TcpServers), Brief(TcpServer(server)));
    case TcpClose(server, callback) =>
      ThenCallback(TcpServers, callback);
      NeatBrief(0, TcpServer(server));
      NeatJoin(0, Brief(TcpServers) + Callback(true, callback), Brief(TcpServer(server)));
    case TcpSendFails(server, known, callback) => SendFailsNeat(server, known, callback);
    case WebsocketOpen(server, callback) => ThenCallback(WebsocketServer(server), callback);
    case WebsocketMessage(server, known, callback) =>
      ThenCallback(WebsocketServer(server), if known then callback else None);
    case WebsocketClose(server, known, callback) =>
      NeatCallback(if known then callback else None);
      NeatWithin(0, WebsocketServer(server), Callback(true, if known then callback else None));
    case WebsocketSend(server) => NeatBrief(0, WebsocketServer(server));
  }

  lemma ThenCallback(l: Lock, callback: Option<Target>)
    ensures Neat(0, Brief(l) + Callback(true, callback))
  {
    hide Neat, Callback;
    NeatBrief(0, l);
    NeatCallback(callback);
    NeatDown(2, Callback(true, callback));
    NeatJoin(0, Brief(l), Callback(true, callback));
  }

  lemma SendFailsNeat(server: nat, known: bool, callback: Option<Target>)
    ensures Neat(0, Code(true, TcpSendFails(server, known, callback)))
  {
    hide Neat, Callback;
    var inner := if known then Callback(true, callback) + Brief(TcpServer(server)) else [];
    NeatCallback(callback);
    NeatLift(1, 2, Callback(true, callback));
    NeatBrief(1, TcpServer(server));
    NeatJoin(1, Callback(true, callback), Brief(TcpServer(server)));
    NeatEmpty(1);
    NeatWithin(0, TcpServers, inner);
    NeatBrief(0, TcpServers);
    NeatBrief(0, TcpServer(server));
    NeatJoin(0, Brief(TcpServers), Brief(TcpServer(server)));
    NeatJoin(0, Brief(TcpServers) + Brief(TcpServer(server)), Within(TcpServers, inner));
  }

  lemma NeatLift(low: nat, high: nat, ops: seq<Op>)
    requires low <= high && Neat(high, ops)
    ensures Neat(low, ops)
  {
  }

  // ---------------------------------------------------------------- whole runs

  /** A lock has one holder, and every thread is on a ranked path. */
  ghost predicate Inv(s: State) {
    && (forall i, j :: 0 <= i < j < |s| ==> s[i].held !! s[j].held)
    && (forall i :: 0 <= i < |s| ==> Ranked(s[i].held, s[i].rest))
  }

  lemma StepKeeps(s: State, s': State, i: nat)
    requires Inv(s) && Step(true, s, s', i)
    ensures Inv(s')
  {
    if s[i].rest == [] {
      var p :| s'[i] == Thread(s[i].held, Code(true, p), Some(p));
      CodeRanked(p);
    }
  }

  lemma {:induction false} RunKeeps(states: seq<State>, who: seq<nat>, k: nat)
    requires IsRun(true, states, who) && k < |states|
    ensures Inv(states[k])
    decreases k
  {
    if k > 0 {
      RunKeeps(states, who, k - 1);
      hide Inv;
      StepKeeps(states[k - 1], states[k], who[k - 1]);
    }
  }

  ghost predicate Holding(s: State, i: nat) {
    i < |s| && s[i].held != {}
  }

  /** A holder of a lock of the highest rank held anywhere. */
  lemma {:induction false} Highest(s: State, n: nat) returns (top: nat, l: Lock)
    requires n <= |s| && exists i :: 0 <= i < n && s[i].held != {}
    ensures top < n && l in s[top].held
    ensures forall i, h :: 0 <= i < n && h in s[i].held ==> Rank(h) <= Rank(l)
    decreases n
  {
    var last := n - 1;
    if s[last].held == {} {
      top, l := Highest(s, last);
    } else {
      var h := Topmost(s[last].held);
      top, l := last, h;
      if exists i :: 0 <= i < last && s[i].held != {} {
        var top0, l0 := Highest(s, last);
        if Rank(l0) > Rank(h) {
          top, l := top0, l0;
        }
      }
    }
  }

  lemma {:induction false} Topmost(held: set<Lock>) returns (l: Lock)
    requires held != {}
    ensures l in held && forall h :: h in held ==> Rank(h) <= Rank(l)
    decreases held
  {
    l :| l in held;
    if held != {l} {
      var m := Topmost(held - {l});
      if Rank(m) > Rank(l) {
        l := m;
      }
    }
  }

  lemma CanStep(s: State) returns (i: nat)
    requires Inv(s) && exists j: nat :: Holding(s, j)
    ensures Holding(s, i) && s[i].rest != [] && Enabled(s, i)
  {
    var j: nat :| Holding(s, j);
    var l;
    i, l := Highest(s, |s|);
  }

  /**
   Deadlock freedom. With pop releasing its lock, in every reachable state of any number of threads, if some lock is
   held then some thread that holds a lock can take its next step.
   */
  lemma DeadlockFree(states: seq<State>, who: seq<nat>, k: nat) returns (i: nat)
    requires IsRun(true, states, who) && k < |states| && exists j: nat :: Holding(states[k], j)
    ensures Holding(states[k], i) && states[k][i].rest != [] && Enabled(states[k], i)
  {
    RunKeeps(states, who, k);
    hide Inv, IsRun;
    i := CanStep(states[k]);
  }

  /** The operations left to the threads that hold locks. */
  function Left(s: State): nat {
    if s == [] then 0 else (if s[0].held == {} then 0 else |s[0].rest|) + Left(s[1..])
  }

  lemma {:induction false} LeftAt(s: State, s': State, i: nat)
    requires |s'| == |s| && i < |s| && forall j :: 0 <= j < |s| && j != i ==> s'[j] == s[j]
    requires (if s'[i].held == {} then 0 else |s'[i].rest|) < (if s[i].held == {} then 0 else |s[i].rest|)
    ensures Left(s') < Left(s)
    decreases |s|
  {
    if i == 0 {
      assert s'[1..] == s[1..];
    } else {
      LeftAt(s[1..], s'[1..], i - 1);
    }
  }

  /** A stretch of a run in which only threads that hold locks move. */
  ghost predicate Unwinding(states: seq<State>, who: seq<nat>) {
    && |states| == |who| + 1
    && forall k :: 0 <= k < |who| ==> Holding(states[k], who[k]) && Step(true, states[k], states[k + 1], who[k])
  }

  /** From every reachable state the threads that hold locks can run on, by themselves, until all locks are free. */
  lemma {:induction false} Unwinds(s: State) returns (states: seq<State>, who: seq<nat>)
    requires Inv(s)
    ensures Unwinding(states, who) && states[0] == s && forall l :: Free(states[|who|], l)
    decreases Left(s)
  {
    if exists j: nat :: Holding(s, j) {
      var i := CanStep(s);
      var s' := s[i := After(s[i])];
      assert Step(true, s, s', i);
      StepKeeps(s, s', i);
      LeftAt(s, s', i);
      var states0, who0 := Unwinds(s');
      states, who := [s] + states0, [i] + who0;
      assert states[|who|] == states0[|who0|];
    } else {
      states, who := [s], [];
      forall l, j | 0 <= j < |s| ensures l !in s[j].held {
        assert !Holding(s, j);
      }
    }
  }

  // ---------------------------------------------------------------- pop as it is written

  /** The first operation on the pool's lock, if any, takes it. */
  predicate TakesFirst(ops: seq<Op>)
    decreases |ops|
  {
    ops == [] || ops[0] == Acquire(Pool) || (ops[0] != Release(Pool) && TakesFirst(ops[1..]))
  }

  lemma {:induction false} TakesJoin(a: seq<Op>, b: seq<Op>)
    requires TakesFirst(a) && TakesFirst(b)
    ensures TakesFirst(a + b)
    decreases |a|
  {
    if a == [] {
      assert a + b == b;
    } else if a[0] != Acquire(Pool) {
      assert (a + b)[1..] == a[1..] + b;
      TakesJoin(a[1..], b);
    }
  }

  lemma {:induction false} TakesTimes(n: nat, body: seq<Op>)
    requires TakesFirst(body)
    ensures TakesFirst(Times(n, body))
    decreases n
  {
    if n > 0 {
      TakesTimes(n - 1, body);
      TakesJoin(body, Times(n - 1, body));
    }
  }

  lemma TakesWithin(l: Lock, body: seq<Op>)
    requires TakesFirst(body)
    ensures TakesFirst(Within(l, body))
  {
    if l != Pool {
      var end := [Release(l)];
      assert end[1..] == [];
      assert TakesFirst(end);
      TakesJoin(body, end);
      assert Within(l, body)[1..] == body + end;
    }
  }

  lemma TakesDeliver(target: Target)
    ensures TakesFirst(Deliver(false, target))
  {
  }

  lemma {:induction false} TakesDeliverAll(targets: seq<Target>)
    ensures TakesFirst(DeliverAll(false, targets))
    decreases |targets|
  {
    if targets != [] {
      hide Deliver;
      TakesDeliver(targets[0]);
      TakesDeliverAll(targets[1..]);
      TakesJoin(Deliver(false, targets[0]), DeliverAll(false, targets[1..]));
    }
  }

  lemma TakesCallback(callback: Option<Target>)
    ensures TakesFirst(Callback(false, callback))
  {
    if callback.Some? {
      TakesDeliver(callback.value);
    }
  }

  lemma TakesThen(l: Lock, callback: Option<Target>)
    ensures TakesFirst(Brief(l) + Callback(false, callback))
  {
    hide Callback;
    TakesWithin(l, []);
    TakesCallback(callback);
    TakesJoin(Brief(l), Callback(false, callback));
  }

  /** No procedure begins with a release of the pool's lock. */
  lemma CodeTakes(p: Procedure)
    ensures TakesFirst(Code(false, p))
  {
    assert Callback(false, None) == [];
    hide TakesFirst, Callback, Deliver, DeliverAll, Within, Brief;
    match p
    case Send(target) => TakesDeliver(target);
    case GetService => TakesBrief(Services);
    case NewService(tries) =>
      TakesBrief(Workers);
      TakesTimes(tries, Brief(Workers));
      TakesBrief(Services);
      TakesJoin(Times(tries, Brief(Workers)), Brief(Services));
    case DestroyService(found, stops) =>
      TakesBrief(Services);
      TakesDestroy(stops);
    case PollService(service, messages) =>
      TakesBrief(Pool);
      TakesTimes(messages, Brief(Pool));
      TakesWithin(Mailbox(service), Times(messages, Brief(Pool)));
    case PollManager => TakesBrief(PreDestroy);
    case TakeFree => TakesBrief(FreeServices);
    case ReturnFree => TakesBrief(FreeServices);
    case CloseAll(targets) =>
      TakesBrief(Services);
      TakesDeliverAll(targets);
      TakesJoin(Brief(Services), DeliverAll(false, targets));
    case TcpLookup => TakesBrief(TcpServers);
    case TcpAccept(server, callback) => TakesThen(TcpServer(server), callback);
    case TcpReceive(callback) => TakesThen(TcpServers, callback);
    case TcpSend(server) =>
      TakesBrief(TcpServers);
      TakesBrief(TcpServer(server));
      TakesJoin(Brief(TcpServers), Brief(TcpServer(server)));
    case TcpClose(server, callback) =>
      TakesThen(TcpServers, callback);
      TakesBrief(TcpServer(server));
      TakesJoin(Brief(TcpServers) + Callback(false, callback), Brief(TcpServer(server)));
    case TcpSendFails(server, known, callback) =>
      var inner := if known then Callback(false, callback) + Brief(TcpServer(server)) else [];
      TakesBrief(TcpServers);
      TakesBrief(TcpServer(server));
      TakesCallback(callback);
      TakesJoin(Callback(false, callback), Brief(TcpServer(server)));
      TakesEmpty();
      TakesWithin(TcpServers, inner);
      TakesJoin(Brief(TcpServers), Brief(TcpServer(server)));
      TakesJoin(Brief(TcpServers) + Brief(TcpServer(server)), Within(TcpServers, inner));
    case WebsocketOpen(server, callback) => TakesThen(WebsocketServer(server), callback);
    case WebsocketMessage(server, known, callback) =>
      TakesThen(WebsocketServer(server), if known then callback else None);
    case WebsocketClose(server, known, callback) =>
      TakesCallback(if known then callback else None);
      TakesWithin(WebsocketServer(server), Callback(false, if known then callback else None));
    case WebsocketSend(server) => TakesBrief(WebsocketServer(server));
  }

  lemma TakesEmpty()
    ensures TakesFirst([])
  {
  }

  lemma TakesBrief(l: Lock)
    ensures TakesFirst(Brief(l))
  {
    TakesWithin(l, []);
  }

  lemma TakesDestroy(stops: Option<nat>)
    ensures TakesFirst(Destroy(stops))
  {
    var middle := if stops.Some? then Brief(Mailbox(stops.value)) else [];
    var tail := [Acquire(PreDestroy), Release(Services), Release(PreDestroy)];
    assert tail[1..] == [Release(Services), Release(PreDestroy)] && tail[1..][1..] == [Release(PreDestroy)];
    assert TakesFirst([Release(PreDestroy)]) && TakesFirst(tail);
    if stops.Some? {
      TakesBrief(Mailbox(stops.value));
    }
    TakesBrief(Workers);
    TakesJoin(Brief(Workers), middle);
    TakesJoin(Brief(Workers) + middle, tail);
    assert Destroy(stops)[1..] == Brief(Workers) + middle + tail;
  }

  /** The thread holds the pool's lock and will try to take it before it could ever release it. */
  ghost predicate Stuck(s: State, i: nat) {
    i < |s| && Pool in s[i].held && TakesFirst(s[i].rest)
  }

  lemma StuckStays(s: State, s': State, i: nat, j: nat)
    requires Stuck(s, i) && Step(false, s, s', j)
    ensures Stuck(s', i)
    ensures s[j].rest == [] || s[j].rest[0] != Acquire(Pool)
  {
    assert !Free(s, Pool);
    if j == i && s[i].rest == [] {
      var p :| s'[i] == Thread(s[i].held, Code(false, p), Some(p));
      CodeTakes(p);
    }
  }

  /**
   As it is written, the first pop is the last: from then on, in every continuation, the pool's lock stays taken, and
   every thread that comes to it stays there, so no message is sent and no mailbox with messages is polled again.
   */
  lemma {:induction false} PopBlocks(states: seq<State>, who: seq<nat>, k: nat, later: nat, i: nat, j: nat)
    requires IsRun(false, states, who) && k <= later < |states| && Stuck(states[k], i)
    ensures Stuck(states[later], i)
    ensures j < |states[k]| && states[k][j].rest != [] && states[k][j].rest[0] == Acquire(Pool) ==>
              j < |states[later]| && states[later][j] == states[k][j] && !Enabled(states[later], j)
    decreases later - k
  {
    if k == later {
      assert !Free(states[k], Pool);
    } else {
      hide Stuck;
      PopBlocks(states, who, k, later - 1, i, j);
      StuckStays(states[later - 1], states[later], i, who[later - 1]);
      StuckTaken(states[later], i);
    }
  }

  lemma StuckTaken(s: State, i: nat)
    requires Stuck(s, i)
    ensures !Free(s, Pool)
  {
  }

  // ---------------------------------------------------------------- exactly when

  /** The procedures that fetch a message object from the pool: every delivery, from a service or from a socket. */
  predicate Pops(p: Procedure) {
    match p
    case Send(_) => true
    case CloseAll(targets) => targets != []
    case TcpAccept(_, callback) => callback.Some?
    case TcpReceive(callback) => callback.Some?
    case TcpClose(_, callback) => callback.Some?
    case TcpSendFails(_, known, callback) => known && callback.Some?
    case WebsocketOpen(_, callback) => callback.Some?
    case WebsocketMessage(_, known, callback) => known && callback.Some?
    case WebsocketClose(_, known, callback) => known && callback.Some?
    case _ => false
  }

  lemma {:induction false} HeldReleased(held: set<Lock>, ops: seq<Op>, l: Lock)
    requires Ranked(held, ops) && l in held
    ensures Release(l) in ops
    decreases |ops|
  {
    if ops[0] != Release(l) {
      HeldReleased(if ops[0].Acquire? then held + {ops[0].lock} else held - {ops[0].lock}, ops[1..], l);
    }
  }

  lemma {:induction false} TakenReleased(held: set<Lock>, ops: seq<Op>, l: Lock)
    requires Ranked(held, ops) && Acquire(l) in ops
    ensures Release(l) in ops
    decreases |ops|
  {
    if ops[0] == Acquire(l) {
      HeldReleased(held + {l}, ops[1..], l);
    } else {
      assert ops == [ops[0]] + ops[1..];
      TakenReleased(if ops[0].Acquire? then held + {ops[0].lock} else held - {ops[0].lock}, ops[1..], l);
    }
  }

  /** A ranked path that holds the pool's lock is not stuck. */
  lemma {:induction false} RankedMoves(held: set<Lock>, ops: seq<Op>)
    requires Ranked(held, ops) && Pool in held
    ensures !TakesFirst(ops)
    decreases |ops|
  {
    if ops[0] != Release(Pool) {
      RankedMoves(if ops[0].Acquire? then held + {ops[0].lock} else held - {ops[0].lock}, ops[1..]);
    }
  }

  lemma DeliverKept(target: Target)
    ensures Acquire(Pool) in Deliver(false, target) && Release(Pool) !in Deliver(false, target)
  {
    assert Deliver(false, target)[0] == Acquire(Pool);
  }

  lemma {:induction false} DeliverAllKept(targets: seq<Target>)
    ensures Release(Pool) !in DeliverAll(false, targets)
        && (targets != [] ==> Acquire(Pool) in DeliverAll(false, targets))
    decreases |targets|
  {
    if targets != [] {
      hide Deliver;
      DeliverKept(targets[0]);
      DeliverAllKept(targets[1..]);
    }
  }

  lemma CallbackKept(callback: Option<Target>)
    ensures Release(Pool) !in Callback(false, callback)
        && (callback.Some? ==> Acquire(Pool) in Callback(false, callback))
  {
    hide Deliver;
    if callback.Some? {
      DeliverKept(callback.value);
    }
  }

  lemma BriefOps(l: Lock)
    ensures forall op :: op in Brief(l) <==> op == Acquire(l) || op == Release(l)
  {
    assert Brief(l) == [Acquire(l), Release(l)];
  }

  /** A procedure that pops takes the pool's lock and never gives it back. */
  lemma PopKept(p: Procedure)
    requires Pops(p)
    ensures Acquire(Pool) in Code(false, p) && Release(Pool) !in Code(false, p)
  {
    hide Deliver, DeliverAll, Callback, Brief;
    match p
    case Send(target) => DeliverKept(target);
    case CloseAll(targets) =>
      BriefOps(Services);
      DeliverAllKept(targets);
    case TcpAccept(server, callback) =>
      BriefOps(TcpServer(server));
      CallbackKept(callback);
    case TcpReceive(callback) =>
      BriefOps(TcpServers);
      CallbackKept(callback);
    case TcpClose(server, callback) =>
      BriefOps(TcpServers);
      BriefOps(TcpServer(server));
      CallbackKept(callback);
    case TcpSendFails(server, known, callback) =>
      BriefOps(TcpServers);
      BriefOps(TcpServer(server));
      CallbackKept(callback);
    case WebsocketOpen(server, callback) =>
      BriefOps(WebsocketServer(server));
      CallbackKept(callback);
    case WebsocketMessage(server, known, callback) =>
      BriefOps(WebsocketServer(server));
      CallbackKept(callback);
    case WebsocketClose(server, known, callback) => CallbackKept(callback);
  }

  /** The other procedures are the same with either pop. */
  lemma NoPopSame(p: Procedure)
    requires !Pops(p)
    ensures Code(false, p) == Code(true, p)
  {
  }

  /** As pop is written, exactly the procedures that do not pop keep the rank and give back what they take. */
  lemma PopsExactly(p: Procedure)
    ensures Ranked({}, Code(false, p)) <==> !Pops(p)
  {
    hide Ranked, Code, Pops;
    if Pops(p) {
      PopKept(p);
      if Ranked({}, Code(false, p)) {
        TakenReleased({}, Code(false, p), Pool);
      }
    } else {
      NoPopSame(p);
      CodeRanked(p);
    }
  }

  /** Like Ranked, up to the first time the pool's lock is taken. */
  ghost predicate Climbs(held: set<Lock>, ops: seq<Op>)
    decreases |ops|
  {
    if ops == [] then held == {}
    else if ops[0].Acquire? then
      && (forall h :: h in held ==> Rank(h) < Rank(ops[0].lock))
      && (ops[0].lock == Pool || Climbs(held + {ops[0].lock}, ops[1..]))
    else ops[0].lock in held && Climbs(held - {ops[0].lock}, ops[1..])
  }

  lemma {:induction false} RankedClimbs(held: set<Lock>, ops: seq<Op>)
    requires Ranked(held, ops)
    ensures Climbs(held, ops)
    decreases |ops|
  {
    if ops != [] {
      RankedClimbs(if ops[0].Acquire? then held + {ops[0].lock} else held - {ops[0].lock}, ops[1..]);
    }
  }

  /** The two paths agree up to the first time the pool's lock is taken. */
  ghost predicate Alike(a: seq<Op>, b: seq<Op>)
    decreases |a|
  {
    if a == [] || b == [] then a == b else a[0] == b[0] && (a[0] == Acquire(Pool) || Alike(a[1..], b[1..]))
  }

  lemma {:induction false} AlikeClimbs(held: set<Lock>, a: seq<Op>, b: seq<Op>)
    requires Climbs(held, a) && Alike(a, b)
    ensures Climbs(held, b)
    decreases |a|
  {
    if a != [] && a[0] != Acquire(Pool) {
      AlikeClimbs(if a[0].Acquire? then held + {a[0].lock} else held - {a[0].lock}, a[1..], b[1..]);
    }
  }

  lemma {:induction false} AlikeSame(a: seq<Op>)
    ensures Alike(a, a)
    decreases |a|
  {
    if a != [] {
      AlikeSame(a[1..]);
    }
  }

  lemma {:induction false} AlikeJoin(a: seq<Op>, b: seq<Op>, c: seq<Op>, d: seq<Op>)
    requires Alike(a, b) && Alike(c, d)
    ensures Alike(a + c, b + d)
    decreases |a|
  {
    if a == [] {
      assert a + c == c && b + d == d;
    } else if a[0] != Acquire(Pool) {
      assert (a + c)[1..] == a[1..] + c && (b + d)[1..] == b[1..] + d;
      AlikeJoin(a[1..], b[1..], c, d);
    }
  }

  lemma AlikeAfter(x: seq<Op>, a: seq<Op>, b: seq<Op>)
    requires Alike(a, b)
    ensures Alike(x + a, x + b)
  {
    AlikeSame(x);
    AlikeJoin(x, x, a, b);
  }

  lemma AlikeWithin(l: Lock, a: seq<Op>, b: seq<Op>)
    requires Alike(a, b)
    ensures Alike(Within(l, a), Within(l, b))
  {
    AlikeAfter([Acquire(l)], a, b);
    AlikeSame([Release(l)]);
    AlikeJoin([Acquire(l)] + a, [Acquire(l)] + b, [Release(l)], [Release(l)]);
  }

  lemma AlikeDeliver(target: Target)
    ensures Alike(Deliver(true, target), Deliver(false, target))
  {
    assert Deliver(true, target)[0] == Acquire(Pool) && Deliver(false, target)[0] == Acquire(Pool);
  }

  lemma AlikeDeliverAll(targets: seq<Target>)
    ensures Alike(DeliverAll(true, targets), DeliverAll(false, targets))
  {
    if targets != [] {
      assert DeliverAll(true, targets)[0] == Acquire(Pool) && DeliverAll(false, targets)[0] == Acquire(Pool);
    }
  }

  lemma AlikeCallback(callback: Option<Target>)
    ensures Alike(Callback(true, callback), Callback(false, callback))
  {
    hide Deliver;
    if callback.Some? {
      AlikeDeliver(callback.value);
    }
  }

  lemma AlikeCode(p: Procedure)
    requires Pops(p)
    ensures Alike(Code(true, p), Code(false, p))
  {
    hide Alike, Deliver, DeliverAll, Callback, Brief, Within;
    match p
    case Send(target) => AlikeDeliver(target);
    case CloseAll(targets) =>
      AlikeDeliverAll(targets);
      AlikeAfter(Brief(Services), DeliverAll(true, targets), DeliverAll(false, targets));
    case TcpAccept(server, callback) =>
      AlikeCallback(callback);
      AlikeAfter(Brief(TcpServer(server)), Callback(true, callback), Callback(false, callback));
    case TcpReceive(callback) =>
      AlikeCallback(callback);
      AlikeAfter(Brief(TcpServers), Callback(true, callback), Callback(false, callback));
    case TcpClose(server, callback) =>
      AlikeCallback(callback);
      AlikeAfter(Brief(TcpServers), Callback(true, callback), Callback(false, callback));
      AlikeSame(Brief(TcpServer(server)));
      AlikeJoin(Brief(TcpServers) + Callback(true, callback), Brief(TcpServers) + Callback(false, callback),
                Brief(TcpServer(server)), Brief(TcpServer(server)));
    case TcpSendFails(server, known, callback) =>
      var a, b := Callback(true, callback) + Brief(TcpServer(server)),
        Callback(false, callback) + Brief(TcpServer(server));
      AlikeCallback(callback);
      AlikeSame(Brief(TcpServer(server)));
      AlikeJoin(Callback(true, callback), Callback(false, callback), Brief(TcpServer(server)),
        Brief(TcpServer(server)));
      AlikeWithin(TcpServers, a, b);
      AlikeAfter(Brief(TcpServers) + Brief(TcpServer(server)), Within(TcpServers, a), Within(TcpServers, b));
    case WebsocketOpen(server, callback) =>
      AlikeCallback(callback);
      AlikeAfter(Brief(WebsocketServer(server)), Callback(true, callback), Callback(false, callback));
    case WebsocketMessage(server, known, callback) =>
      AlikeCallback(callback);
      AlikeAfter(Brief(WebsocketServer(server)), Callback(true, callback), Callback(false, callback));
    case WebsocketClose(server, known, callback) =>
      AlikeCallback(callback);
      AlikeWithin(WebsocketServer(server), Callback(true, callback), Callback(false, callback));
  }

  /** As pop is written, the step takes the pool's lock for a pop. */
  ghost predicate PopsAt(s: State, i: nat) {
    i < |s| && s[i].rest != [] && s[i].rest[0] == Acquire(Pool) && s[i].now.Some? && Pops(s[i].now.value)
  }

  /** A thread before its first pop. */
  ghost predicate Unpopped(t: Thread) {
    match t.now
    case None => t.held == {} && t.rest == []
    case Some(p) =>
      if Pops(p) then Climbs(t.held, t.rest) && Pool !in t.held && Acquire(Pool) in t.rest && Release(Pool) !in t.rest
      else Ranked(t.held, t.rest)
  }

  ghost predicate Sound(s: State) {
    && (forall i, j :: 0 <= i < j < |s| ==> s[i].held !! s[j].held)
    && (forall i :: 0 <= i < |s| ==> Unpopped(s[i]))
  }

  lemma NewUnpopped(p: Procedure)
    ensures Unpopped(Thread({}, Code(false, p), Some(p)))
  {
    hide Ranked, Climbs, Alike, Code, Pops;
    CodeRanked(p);
    if Pops(p) {
      PopKept(p);
      RankedClimbs({}, Code(true, p));
      AlikeCode(p);
      AlikeClimbs({}, Code(true, p), Code(false, p));
    } else {
      NoPopSame(p);
    }
  }

  lemma AfterUnpopped(t: Thread)
    requires Unpopped(t) && t.rest != [] && !(t.rest[0] == Acquire(Pool) && t.now.Some? && Pops(t.now.value))
    ensures Unpopped(After(t))
  {
    hide Pops;
    assert t.rest == [t.rest[0]] + t.rest[1..];
  }

  lemma SoundStays(s: State, s': State, i: nat)
    requires Sound(s) && Step(false, s, s', i) && !PopsAt(s, i)
    ensures Sound(s')
  {
    hide Ranked, Climbs, Code, Pops, After;
    if s[i].rest == [] {
      var p :| s'[i] == Thread(s[i].held, Code(false, p), Some(p));
      IdleHoldsNothing(s[i]);
      NewUnpopped(p);
    } else {
      AfterUnpopped(s[i]);
      AfterHeld(s[i]);
    }
    hide Unpopped;
  }

  lemma IdleHoldsNothing(t: Thread)
    requires Unpopped(t) && t.rest == []
    ensures t.held == {}
  {
  }

  lemma AfterHeld(t: Thread)
    requires t.rest != []
    ensures After(t).held == if t.rest[0].Acquire? then t.held + {t.rest[0].lock} else t.held - {t.rest[0].lock}
  {
  }

  lemma UnpoppedMoves(t: Thread)
    requires Unpopped(t)
    ensures !(Pool in t.held && TakesFirst(t.rest))
  {
    if t.now.Some? && !Pops(t.now.value) && Pool in t.held {
      RankedMoves(t.held, t.rest);
    }
  }

  lemma {:induction false} NoReleaseTakes(ops: seq<Op>)
    requires Release(Pool) !in ops
    ensures TakesFirst(ops)
    decreases |ops|
  {
    if ops != [] {
      assert ops == [ops[0]] + ops[1..];
      NoReleaseTakes(ops[1..]);
    }
  }

  lemma PopSticks(s: State, s': State, i: nat)
    requires i < |s| && Unpopped(s[i]) && PopsAt(s, i) && Step(false, s, s', i)
    ensures Stuck(s', i)
  {
    hide Pops, Climbs, Ranked;
    assert s[i].rest == [s[i].rest[0]] + s[i].rest[1..];
    NoReleaseTakes(s[i].rest[1..]);
  }

  /** Some step before `k` took the pool's lock for a pop. */
  ghost predicate Popped(states: seq<State>, who: seq<nat>, k: nat)
    requires |states| == |who| + 1 && k <= |who|
  {
    exists j :: 0 <= j < k && PopsAt(states[j], who[j])
  }

  lemma {:induction false} PoppedOrSound(states: seq<State>, who: seq<nat>, k: nat)
    requires IsRun(false, states, who) && k <= |who|
    ensures if Popped(states, who, k) then exists i: nat :: Stuck(states[k], i) else Sound(states[k])
    decreases k
  {
    if k > 0 {
      PoppedOrSound(states, who, k - 1);
      var s, s', i := states[k - 1], states[k], who[k - 1];
      hide Stuck, Sound, Step, PopsAt;
      if Popped(states, who, k - 1) {
        var stuck: nat :| Stuck(s, stuck);
        StuckStays(s, s', stuck, i);
        assert Popped(states, who, k);
      } else if PopsAt(s, i) {
        SoundAt(s, i);
        PopSticks(s, s', i);
        assert Popped(states, who, k);
      } else {
        SoundStays(s, s', i);
      }
    }
  }

  lemma SoundAt(s: State, i: nat)
    requires Sound(s) && PopsAt(s, i)
    ensures Unpopped(s[i])
  {
  }

  lemma SoundMoves(s: State, i: nat)
    requires Sound(s)
    ensures !Stuck(s, i)
  {
    if i < |s| {
      UnpoppedMoves(s[i]);
    }
  }

  /**
   In every run of the code as it is, a thread is stuck with the pool's lock exactly when some thread, whatever it was
   doing, has taken that lock to fetch a message: the first message, from a service or from a socket, is the last.
   */
  lemma StuckExactly(states: seq<State>, who: seq<nat>, k: nat)
    requires IsRun(false, states, who) && k <= |who|
    ensures (exists i: nat :: Stuck(states[k], i)) <==> Popped(states, who, k)
  {
    PoppedOrSound(states, who, k);
    hide Stuck, Sound, IsRun, PopsAt;
    if !Popped(states, who, k) {
      forall i: nat ensures !Stuck(states[k], i) {
        SoundMoves(states[k], i);
      }
    }
  }

  lemma UnpoppedClimbs(t: Thread)
    requires Unpopped(t)
    ensures Climbs(t.held, t.rest)
  {
    if t.now.Some? && !Pops(t.now.value) {
      RankedClimbs(t.held, t.rest);
    }
  }

  /** Until then nothing is wrong: if some lock is held, some thread that holds a lock can take its next step. */
  lemma DeadlockFreeUntilPop(states: seq<State>, who: seq<nat>, k: nat) returns (i: nat)
    requires IsRun(false, states, who) && k <= |who| && !Popped(states, who, k)
    requires exists j: nat :: Holding(states[k], j)
    ensures Holding(states[k], i) && states[k][i].rest != [] && Enabled(states[k], i)
  {
    PoppedOrSound(states, who, k);
    hide IsRun, Popped, Unpopped;
    var s := states[k];
    var j: nat :| Holding(s, j);
    var l;
    i, l := Highest(s, |s|);
    UnpoppedClimbs(s[i]);
  }
}
