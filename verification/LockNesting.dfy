/** Which locks each procedure of module Locks takes, and under which others. */
module LockNesting {
  import opened Basics
  import opened Locks

  /** The locks held, with None for the ground below all of them. */
  type Ground = set<Option<Lock>>

  type Nestings = set<(Option<Lock>, Lock)>

  function Over(held: Ground, locks: set<Lock>): Nestings {
    set below, l | below in held && l in locks :: (below, l)
  }

  /** Every lock taken, with every lock held when it is. */
  function Taken(held: Ground, ops: seq<Op>): Nestings
    decreases |ops|
  {
    if ops == [] then {}
    else match ops[0]
      case Acquire(l) => Over(held, {l}) + Taken(held + {Some(l)}, ops[1..])
      case Release(l) => Taken(held - {Some(l)}, ops[1..])
  }

  function HeldThen(held: Ground, ops: seq<Op>): Ground
    decreases |ops|
  {
    if ops == [] then held
    else match ops[0]
      case Acquire(l) => HeldThen(held + {Some(l)}, ops[1..])
      case Release(l) => HeldThen(held - {Some(l)}, ops[1..])
  }

  lemma {:induction false} TakenJoin(held: Ground, a: seq<Op>, b: seq<Op>)
    ensures Taken(held, a + b) == Taken(held, a) + Taken(HeldThen(held, a), b)
    ensures HeldThen(held, a + b) == HeldThen(HeldThen(held, a), b)
    decreases |a|
  {
    if a == [] {
      assert a + b == b;
    } else {
      hide Over;
      assert (a + b)[1..] == a[1..] + b;
      match a[0]
      case Acquire(l) => TakenJoin(held + {Some(l)}, a[1..], b);
      case Release(l) => TakenJoin(held - {Some(l)}, a[1..], b);
    }
  }

  /** The operations take these locks over what is held, nested no further, and give them back. */
  ghost predicate Flat(held: Ground, ops: seq<Op>, locks: set<Lock>) {
    Taken(held, ops) == Over(held, locks) && HeldThen(held, ops) == held
  }

  lemma FlatNone(held: Ground)
    ensures Flat(held, [], {})
  {
  }

  lemma FlatBrief(held: Ground, l: Lock)
    requires Some(l) !in held
    ensures Flat(held, Brief(l), {l})
  {
    var ops := Brief(l);
    assert ops == [Acquire(l), Release(l)] && ops[1..] == [Release(l)] && ops[1..][1..] == [];
    assert held + {Some(l)} - {Some(l)} == held;
    assert HeldThen(held, []) == held && HeldThen(held + {Some(l)}, [Release(l)]) == held;
    assert HeldThen(held, ops) == HeldThen(held + {Some(l)}, ops[1..]);
    assert Taken(held + {Some(l)}, [Release(l)]) == {};
    assert Taken(held, ops) == Over(held, {l}) + {};
  }

  lemma FlatJoin(held: Ground, a: seq<Op>, la: set<Lock>, b: seq<Op>, lb: set<Lock>)
    requires Flat(held, a, la) && Flat(held, b, lb)
    ensures Flat(held, a + b, la + lb)
  {
    hide Taken, HeldThen;
    TakenJoin(held, a, b);
  }

  lemma {:induction false} FlatTimes(held: Ground, n: nat, body: seq<Op>, locks: set<Lock>)
    requires Flat(held, body, locks)
    ensures Flat(held, Times(n, body), if n == 0 then {} else locks)
    decreases n
  {
    hide Flat;
    if n == 0 {
      FlatNone(held);
    } else {
      FlatTimes(held, n - 1, body, locks);
      FlatJoin(held, body, locks, Times(n - 1, body), if n == 1 then {} else locks);
      assert locks + (if n == 1 then {} else locks) == locks;
    }
  }

  /** The locks of a delivery and of a callback. */
  function DeliverLocks(target: Target): set<Lock> {
    {Pool, Services} + if target.Some? then {Mailbox(target.value)} else {}
  }

  function CallbackLocks(callback: Option<Target>): set<Lock> {
    if callback.Some? then DeliverLocks(callback.value) else {}
  }

  function AllLocks(targets: seq<Target>): set<Lock> {
    set target, l | target in targets && l in DeliverLocks(target) :: l
  }

  /** Nothing that a delivery takes is held. */
  ghost predicate ClearOf(held: Ground) {
    Some(Pool) !in held && Some(Services) !in held && forall service :: Some(Mailbox(service)) !in held
  }

  lemma FlatDeliver(held: Ground, target: Target)
    requires ClearOf(held)
    ensures Flat(held, Deliver(true, target), DeliverLocks(target))
  {
    hide Flat, Brief;
    FlatNone(held);
    FlatBrief(held, Pool);
    FlatBrief(held, Services);
    FlatJoin(held, Brief(Pool), {Pool}, Brief(Services), {Services});
    if target.Some? {
      FlatBrief(held, Mailbox(target.value));
      FlatJoin(held, Brief(Pool) + Brief(Services), {Pool} + {Services},
               Brief(Mailbox(target.value)), {Mailbox(target.value)});
      assert DeliverLocks(target) == {Pool} + {Services} + {Mailbox(target.value)};
    } else {
      assert Deliver(true, target) == Brief(Pool) + Brief(Services);
      assert DeliverLocks(target) == {Pool} + {Services};
    }
  }

  lemma FlatCallback(held: Ground, callback: Option<Target>)
    requires ClearOf(held)
    ensures Flat(held, Callback(true, callback), CallbackLocks(callback))
  {
    hide Flat, Deliver;
    FlatNone(held);
    if callback.Some? {
      FlatDeliver(held, callback.value);
    }
  }

  lemma {:induction false} FlatDeliverAll(held: Ground, targets: seq<Target>)
    requires ClearOf(held)
    ensures Flat(held, DeliverAll(true, targets), AllLocks(targets))
    decreases |targets|
  {
    hide Flat, Deliver, DeliverLocks;
    if targets == [] {
      assert AllLocks(targets) == {};
      FlatNone(held);
    } else {
      FlatDeliver(held, targets[0]);
      FlatDeliverAll(held, targets[1..]);
      FlatJoin(held, Deliver(true, targets[0]), DeliverLocks(targets[0]), DeliverAll(true, targets[1..]),
               AllLocks(targets[1..]));
      assert targets == [targets[0]] + targets[1..];
      assert AllLocks(targets) == DeliverLocks(targets[0]) + AllLocks(targets[1..]);
    }
  }

  /** A lock around operations that are flat under it. */
  lemma TakenWithin(held: Ground, l: Lock, body: seq<Op>, locks: set<Lock>)
    requires Some(l) !in held && Flat(held + {Some(l)}, body, locks)
    ensures Taken(held, Within(l, body)) == Over(held, {l}) + Over(held + {Some(l)}, locks)
    ensures HeldThen(held, Within(l, body)) == held
  {
    var rest := body + [Release(l)];
    assert Within(l, body) == [Acquire(l)] + rest && Within(l, body)[1..] == rest;
    TakenJoin(held + {Some(l)}, body, [Release(l)]);
    assert [Release(l)][1..] == [];
    assert held + {Some(l)} - {Some(l)} == held;
  }

  const GROUND: Ground := {None}

  /** For each procedure, the locks it takes and those it holds meanwhile. */
  function Nesting(p: Procedure): Nestings {
    match p
    case Send(target) => Over({None}, DeliverLocks(target))
    case GetService => Over({None}, {Services})
    case NewService(tries) => Over({None}, {Services} + if tries > 0 then {Workers} else {})
    case DestroyService(found, stops) =>
      Over({None}, {Services})
      + if found
        then Over({None, Some(Services)},
                  {Workers, PreDestroy} + if stops.Some? then {Mailbox(stops.value)} else {})
        else {}
    case PollService(service, messages) =>
      Over({None}, {Mailbox(service)})
      + Over({None, Some(Mailbox(service))}, if messages > 0 then {Pool} else {})
    case PollManager => Over({None}, {PreDestroy})
    case TakeFree => Over({None}, {FreeServices})
    case ReturnFree => Over({None}, {FreeServices})
    case CloseAll(targets) => Over({None}, {Services} + AllLocks(targets))
    case TcpLookup => Over({None}, {TcpServers})
    case TcpAccept(server, callback) => Over({None}, {TcpServer(server)} + CallbackLocks(callback))
    case TcpReceive(callback) => Over({None}, {TcpServers} + CallbackLocks(callback))
    case TcpSend(server) => Over({None}, {TcpServers, TcpServer(server)})
    case TcpClose(server, callback) => Over({None}, {TcpServers, TcpServer(server)} + CallbackLocks(callback))
    case TcpSendFails(server, known, callback) =>
      Over({None}, {TcpServers, TcpServer(server)})
      + Over({None, Some(TcpServers)}, if known then {TcpServer(server)} + CallbackLocks(callback) else {})
    case WebsocketOpen(server, callback) => Over({None}, {WebsocketServer(server)} + CallbackLocks(callback))
    case WebsocketMessage(server, known, callback) =>
      Over({None}, {WebsocketServer(server)} + if known then CallbackLocks(callback) else {})
    case WebsocketClose(server, known, callback) =>
      Over({None}, {WebsocketServer(server)})
      + Over({None, Some(WebsocketServer(server))}, if known then CallbackLocks(callback) else {})
    case WebsocketSend(server) => Over({None}, {WebsocketServer(server)})
  }

  lemma BriefFirst(l: Lock, rest: seq<Op>, locks: set<Lock>)
    requires Flat(GROUND, rest, locks)
    ensures Flat(GROUND, Brief(l) + rest, {l} + locks)
  {
    hide Flat, Brief;
    FlatBrief(GROUND, l);
    FlatJoin(GROUND, Brief(l), {l}, rest, locks);
  }

  lemma FlatAll(p: Procedure, locks: set<Lock>)
    requires Flat(GROUND, Code(true, p), locks) && Nesting(p) == Over({None}, locks)
    ensures Taken(GROUND, Code(true, p)) == Nesting(p)
  {
  }

  /** The procedures that hold no lock while they take another. */
  lemma FlatProcedures(p: Procedure)
    requires !p.DestroyService? && !p.PollService? && !p.TcpSendFails? && !p.WebsocketClose?
    ensures Taken(GROUND, Code(true, p)) == Nesting(p)
  {
    hide Flat, Brief, Deliver, DeliverAll, Callback, Taken, DeliverLocks, CallbackLocks, AllLocks, Over;
    FlatNone(GROUND);
    match p
    case Send(target) =>
      FlatDeliver(GROUND, target);
      FlatAll(p, DeliverLocks(target));
    case GetService =>
      FlatBrief(GROUND, Services);
      FlatAll(p, {Services});
    case NewService(tries) =>
      FlatBrief(GROUND, Workers);
      FlatBrief(GROUND, Services);
      FlatTimes(GROUND, tries, Brief(Workers), {Workers});
      var workers := if tries == 0 then {} else {Workers};
      FlatJoin(GROUND, Times(tries, Brief(Workers)), workers, Brief(Services), {Services});
      assert workers + {Services} == {Services} + if tries > 0 then {Workers} else {};
      FlatAll(p, workers + {Services});
    case PollManager =>
      FlatBrief(GROUND, PreDestroy);
      FlatAll(p, {PreDestroy});
    case TakeFree =>
      FlatBrief(GROUND, FreeServices);
      FlatAll(p, {FreeServices});
    case ReturnFree =>
      FlatBrief(GROUND, FreeServices);
      FlatAll(p, {FreeServices});
    case CloseAll(targets) =>
      FlatDeliverAll(GROUND, targets);
      BriefFirst(Services, DeliverAll(true, targets), AllLocks(targets));
      FlatAll(p, {Services} + AllLocks(targets));
    case TcpLookup =>
      FlatBrief(GROUND, TcpServers);
      FlatAll(p, {TcpServers});
    case TcpAccept(server, callback) =>
      FlatCallback(GROUND, callback);
      BriefFirst(TcpServer(server), Callback(true, callback), CallbackLocks(callback));
      FlatAll(p, {TcpServer(server)} + CallbackLocks(callback));
    case TcpReceive(callback) =>
      FlatCallback(GROUND, callback);
      BriefFirst(TcpServers, Callback(true, callback), CallbackLocks(callback));
      FlatAll(p, {TcpServers} + CallbackLocks(callback));
    case TcpSend(server) =>
      FlatBrief(GROUND, TcpServer(server));
      BriefFirst(TcpServers, Brief(TcpServer(server)), {TcpServer(server)});
      assert {TcpServers} + {TcpServer(server)} == {TcpServers, TcpServer(server)};
      FlatAll(p, {TcpServers, TcpServer(server)});
    case TcpClose(server, callback) =>
      FlatCallback(GROUND, callback);
      BriefFirst(TcpServers, Callback(true, callback), CallbackLocks(callback));
      FlatBrief(GROUND, TcpServer(server));
      FlatJoin(GROUND, Brief(TcpServers) + Callback(true, callback), {TcpServers} + CallbackLocks(callback),
               Brief(TcpServer(server)), {TcpServer(server)});
      assert {TcpServers} + CallbackLocks(callback) + {TcpServer(server)}
          == {TcpServers, TcpServer(server)} + CallbackLocks(callback);
      FlatAll(p, {TcpServers, TcpServer(server)} + CallbackLocks(callback));
    case WebsocketOpen(server, callback) =>
      FlatCallback(GROUND, callback);
      BriefFirst(WebsocketServer(server), Callback(true, callback), CallbackLocks(callback));
      FlatAll(p, {WebsocketServer(server)} + CallbackLocks(callback));
    case WebsocketMessage(server, known, callback) =>
      FlatCallback(GROUND, callback);
      BriefFirst(WebsocketServer(server), if known then Callback(true, callback) else [],
                 if known then CallbackLocks(callback) else {});
      FlatAll(p, {WebsocketServer(server)} + if known then CallbackLocks(callback) else {});
    case WebsocketSend(server) =>
      FlatBrief(GROUND, WebsocketServer(server));
      FlatAll(p, {WebsocketServer(server)});
  }

  lemma LastTakes(under: Ground)
    requires under == {None, Some(Services)}
    ensures Taken(under, [Acquire(PreDestroy), Release(Services), Release(PreDestroy)]) == Over(under, {PreDestroy})
  {
    var last := [Acquire(PreDestroy), Release(Services), Release(PreDestroy)];
    assert last[1..] == [Release(Services), Release(PreDestroy)] && last[1..][1..] == [Release(PreDestroy)];
    assert last[1..][1..][1..] == [];
  }

  lemma FirstTakes()
    ensures Taken(GROUND, [Acquire(Services)]) == Over({None}, {Services})
    ensures HeldThen(GROUND, [Acquire(Services)]) == {None, Some(Services)}
  {
    assert [Acquire(Services)][1..] == [];
    assert GROUND + {Some(Services)} == {None, Some(Services)};
  }

  lemma OverJoin(held: Ground, a: set<Lock>, b: set<Lock>)
    ensures Over(held, a + b) == Over(held, a) + Over(held, b)
  {
  }

  /** destoryService gives up the map of services after it has taken the stack. */
  lemma DestroyTakes(stops: Option<nat>)
    ensures Taken(GROUND, Destroy(stops)) == Nesting(DestroyService(true, stops))
  {
    hide Taken, HeldThen, Over, Flat, Brief;
    var first, under := [Acquire(Services)], {None, Some(Services)};
    var mailbox := if stops.Some? then Brief(Mailbox(stops.value)) else [];
    var last := [Acquire(PreDestroy), Release(Services), Release(PreDestroy)];
    var locks := if stops.Some? then {Mailbox(stops.value)} else {};
    assert Destroy(stops) == first + (Brief(Workers) + mailbox + last);
    FirstTakes();
    FlatNone(under);
    FlatBrief(under, Workers);
    if stops.Some? {
      FlatBrief(under, Mailbox(stops.value));
    }
    FlatJoin(under, Brief(Workers), {Workers}, mailbox, locks);
    FlatHas(under, Brief(Workers) + mailbox, {Workers} + locks);
    TakenJoin(under, Brief(Workers) + mailbox, last);
    TakenJoin(GROUND, first, Brief(Workers) + mailbox + last);
    LastTakes(under);
    OverJoin(under, {Workers} + locks, {PreDestroy});
    assert {Workers} + locks + {PreDestroy} == {Workers, PreDestroy} + locks;
  }

  /**
   The lock hierarchy as it is used: for every procedure and all its arguments, exactly these locks are taken, and
   exactly these are held at that moment. Only four procedures take a lock while they hold another.
   */
  lemma NestingExactly(p: Procedure)
    ensures Taken(GROUND, Code(true, p)) == Nesting(p)
  {
    match p
    case DestroyService(found, stops) =>
      if found {
        DestroyTakes(stops);
      } else {
        FlatBrief(GROUND, Services);
      }
    case PollService(service, messages) =>
      var under := GROUND + {Some(Mailbox(service))};
      FlatBrief(under, Pool);
      FlatTimes(under, messages, Brief(Pool), {Pool});
      TakenWithin(GROUND, Mailbox(service), Times(messages, Brief(Pool)), if messages == 0 then {} else {Pool});
      assert under == {None, Some(Mailbox(service))};
    case TcpSendFails(server, known, callback) => SendFailsTakes(server, known, callback);
    case WebsocketClose(server, known, callback) =>
      var under := GROUND + {Some(WebsocketServer(server))};
      FlatNone(under);
      FlatCallback(under, callback);
      TakenWithin(GROUND, WebsocketServer(server), if known then Callback(true, callback) else [],
                  if known then CallbackLocks(callback) else {});
      assert under == {None, Some(WebsocketServer(server))};
    case _ => FlatProcedures(p);
  }

  lemma FlatHas(held: Ground, ops: seq<Op>, locks: set<Lock>)
    requires Flat(held, ops, locks)
    ensures Taken(held, ops) == Over(held, locks) && HeldThen(held, ops) == held
  {
  }

  lemma OverTwice(a: set<Lock>, b: set<Lock>)
    ensures Over({None}, a + b) == Over({None}, a + b) + Over({None}, a)
  {
  }

  lemma SendFailsTakes(server: nat, known: bool, callback: Option<Target>)
    ensures var p := TcpSendFails(server, known, callback); Taken(GROUND, Code(true, p)) == Nesting(p)
  {
    hide Flat, Brief, Callback, CallbackLocks, Taken, HeldThen, Over;
    var under := GROUND + {Some(TcpServers)};
    var lookups := Brief(TcpServers) + Brief(TcpServer(server));
    var body := if known then Callback(true, callback) + Brief(TcpServer(server)) else [];
    var locks := if known then CallbackLocks(callback) + {TcpServer(server)} else {};
    FlatBrief(GROUND, TcpServer(server));
    BriefFirst(TcpServers, Brief(TcpServer(server)), {TcpServer(server)});
    FlatNone(under);
    FlatCallback(under, callback);
    FlatBrief(under, TcpServer(server));
    FlatJoin(under, Callback(true, callback), CallbackLocks(callback), Brief(TcpServer(server)), {TcpServer(server)});
    TakenWithin(GROUND, TcpServers, body, locks);
    TakenJoin(GROUND, lookups, Within(TcpServers, body));
    FlatHas(GROUND, lookups, {TcpServers} + {TcpServer(server)});
    assert under == {None, Some(TcpServers)};
    OverTwice({TcpServers}, {TcpServer(server)});
    assert locks == if known then {TcpServer(server)} + CallbackLocks(callback) else {};
    assert {TcpServers} + {TcpServer(server)} == {TcpServers, TcpServer(server)} && GROUND == {None};
    assert Code(true, TcpSendFails(server, known, callback)) == lookups + Within(TcpServers, body);
  }
}
