/**
 Runs of any number of nodes, each with a cluster service and any ordinary services, that call each other through
 lualib/cluster.lua. Mailboxes and connections are queues, handlers are arbitrary, and timeouts, lost batches,
 failing sockets and closed connections happen at any time.
 */
module ClusterSystem {
  import opened Basics
  import opened Frames
  import opened ClusterService

  /** A service of a node. */
  datatype Addr = Addr(node: nat, service: nat)

  /** A session of a service. */
  datatype Key = Key(at: Addr, session: nat)

  /** What was asked in a session: a service of the same node, or a named service of another node. */
  datatype Call = Local(service: nat, data: Bytes) | Remote(toNode: nat, name: Bytes, data: Bytes)

  datatype Body = Plain(data: Bytes) | Send(toNode: nat, name: Bytes, from: nat, data: Bytes)

  datatype Msg = Ask(source: nat, session: nat, body: Body) | Answer(session: nat, isOk: bool, data: Bytes)

  /** A request a handler has received and may answer, with the source and session it was given. */
  datatype Duty = Duty(source: nat, session: nat, data: Bytes)

  /** An ordinary service: api.autoSessionId, the sessions in api.callCoro, and the requests it has received. */
  datatype App = App(autoSession: nat, waiting: set<nat>, duties: set<Duty>)

  /** A TCP connection between a client of one node and, once accepted, descriptor `fd` of the other. */
  datatype Conn = Conn(fd: Option<nat>, up: seq<Bytes>, down: seq<Bytes>)

  datatype Outcome = TimedOut | Answered(isOk: bool, data: Bytes)

  /** A coroutine that waited in `key` was resumed. */
  datatype Result = Result(key: Key, outcome: Outcome)

  /** The handler of service `giver` gave this answer to the request that was issued in session `to`. */
  datatype Given = Given(giver: Addr, to: Key, isOk: bool, data: Bytes)

  /** Why a call to another node failed: no answer in time there, no such service there, no connection. */
  datatype Why = NoAnswer | NotFound | NotConnected

  /** The call issued in session `key` to node `node` failed. */
  datatype Failure = Failure(key: Key, node: nat, why: Why)

  /**
   What has happened so far: calls issued, connections dialled, who is behind each accepted descriptor, which caller's
   session each call of a cluster service is made for, the answers handlers gave, and the calls that failed.
   */
  datatype History = History(
    calls: map<Key, Call>, dialed: map<Addr, nat>, peers: map<Addr, Addr>, serves: map<Key, Key>, given: set<Given>,
    failed: set<Failure>)

  datatype System = System(
    clusters: map<nat, State>,
    apps: map<Addr, App>,
    mail: map<Addr, seq<Msg>>,
    conns: map<Addr, Conn>,
    nextFd: map<nat, nat>,
    history: History,
    results: seq<Result>)

  /** A request to a cluster service in its own words: the service `from` is the one to answer. */
  datatype Command = Command(toNode: nat, name: Bytes, from: nat, data: Bytes)

  /**
   The environment: the id of each node's cluster service, the services registered under each name, the JSON
   library, and how a cluster service reads a request that did not come through lualib/cluster.lua: any list but
   "listen" is taken for a request to relay, and None stands for a list it cannot pack.
   */
  datatype Config = Config(
    cluster: nat -> nat,
    lookup: (nat, Bytes) -> nat,
    json: Json,
    command: Bytes -> Option<Command>)

  datatype Event =
    | CallRemote(at: Addr, toNode: nat, name: Bytes, data: Bytes)
    | SendRemote(at: Addr, toNode: nat, name: Bytes, data: Bytes)
    | CallLocal(at: Addr, service: nat, data: Bytes)
    | SendLocal(at: Addr, service: nat, data: Bytes)
    | AppTake(at: Addr)
    | AppAnswer(at: Addr, duty: Duty, isOk: bool, data: Bytes)
    | AppTimeout(at: Addr, session: nat)
    | Lose(at: Addr)
    | ClusterTake(node: nat)
    | ClusterRun(node: nat, i: nat, sendOk: bool, started: bool)
    | ClusterTimeout(node: nat, session: nat)
    | HttpDone(node: nat, h: nat, found: bool, connectOk: bool)
    | Connected(node: nat, c: nat)
    | ConnectFailed(node: nat, c: nat)
    | Closed(node: nat, c: nat)
    | ClientRead(node: nat, c: nat)
    | ServerRead(node: nat, c: nat)

  // ---------------------------------------------------------------- steps

  function Push(g: System, at: Addr, m: Msg): System {
    if at in g.mail then g.(mail := g.mail[at := g.mail[at] + [m]]) else g
  }

  /** One foreign call of a cluster service; a frame for an unknown connection or descriptor is dropped. */
  function Perform(cfg: Config, g: System, n: nat, e: Effect): System {
    match e
    case SendClient(c, frame) =>
      if Addr(n, c) in g.conns
      then g.(conns := g.conns[Addr(n, c) := g.conns[Addr(n, c)].(up := g.conns[Addr(n, c)].up + [frame])]) else g
    case SendServer(fd, frame) =>
      if Addr(n, fd) in g.history.peers && g.history.peers[Addr(n, fd)] in g.conns then
        var peer := g.history.peers[Addr(n, fd)];
        g.(conns := g.conns[peer := g.conns[peer].(down := g.conns[peer].down + [frame])])
      else g
    case PostCall(service, session, data) => Push(g, Addr(n, service), Ask(cfg.cluster(n), session, Plain(data)))
    case PostResponse(service, session, isOk, data) => Push(g, Addr(n, service), Answer(session, isOk, data))
    case HttpGet(_, _) => g
    case Dial(c, _) => g.(conns := g.conns[Addr(n, c) := Conn(None, [], [])])
  }

  function PerformAll(cfg: Config, g: System, n: nat, es: seq<Effect>): System
    decreases |es|
  {
    if es == [] then g else PerformAll(cfg, Perform(cfg, g, n, es[0]), n, es[1..])
  }

  /** The session of the cluster service of node `n`. */
  function Mine(cfg: Config, n: nat, t: nat): Key {
    Key(Addr(n, cfg.cluster(n)), t)
  }

  /** The caller's session that an answer remembered as `b` is for. */
  function Asker(h: History, n: nat, b: Back): Key {
    Key(Addr(if Addr(n, b.fd) in h.peers then h.peers[Addr(n, b.fd)].node else n, b.from), b.session)
  }

  /**
   The history entries a foreign call makes: a call of the cluster service itself, for the caller its state `k`
   remembers, or a connection dialled.
   */
  function Noted(cfg: Config, h: History, n: nat, k: State, e: Effect): History {
    match e
    case PostCall(service, session, data) =>
      if session == 0 then h
      else
        h.(calls := h.calls[Mine(cfg, n, session) := Local(service, data)],
           serves := if session in k.callCoro then h.serves[Mine(cfg, n, session) := Asker(h, n, k.callCoro[session])]
                     else h.serves)
    case Dial(c, node) => h.(dialed := h.dialed[Addr(n, c) := node])
    case _ => h
  }

  function NotedAll(cfg: Config, h: History, n: nat, k: State, es: seq<Effect>): History
    decreases |es|
  {
    if es == [] then h else NotedAll(cfg, Noted(cfg, h, n, k, es[0]), n, k, es[1..])
  }

  /** A cluster service moves to state `k`, making foreign calls `es`. */
  function Become(cfg: Config, g: System, n: nat, k: State, es: seq<Effect>): System {
    PerformAll(cfg, g.(clusters := g.clusters[n := k], history := NotedAll(cfg, g.history, n, k, es)), n, es)
  }

  /** api.call: a fresh session, recorded before the request is posted. */
  function Issue(g: System, at: Addr, call: Call, to: Addr, body: Body): System
    requires at in g.apps
  {
    var app := g.apps[at];
    Push(g.(apps := g.apps[at := app.(autoSession := app.autoSession + 1, waiting := app.waiting + {app.autoSession})],
            history := g.history.(calls := g.history.calls[Key(at, app.autoSession) := call])),
         to, Ask(at.service, app.autoSession, body))
  }

  /** onPoll on the first message of an ordinary service. */
  function TakeApp(g: System, at: Addr): System
    requires at in g.apps && at in g.mail && |g.mail[at]| > 0
  {
    var app, m := g.apps[at], g.mail[at][0];
    var g1 := g.(mail := g.mail[at := g.mail[at][1..]]);
    match m
    case Ask(source, session, Plain(data)) =>
      g1.(apps := g.apps[at := app.(duties := app.duties + {Duty(source, session, data)})])
    case Ask(_, _, Send(_, _, _, _)) => g1
    case Answer(session, isOk, data) =>
      if session in app.waiting then
        g1.(apps := g.apps[at := app.(waiting := app.waiting - {session})],
            results := g.results + [Result(Key(at, session), Answered(isOk, data))])
      else g1
  }

  /** onPoll on the first message of a cluster service. */
  function TakeCluster(cfg: Config, g: System, n: nat): System
    requires n in g.clusters && var at := Addr(n, cfg.cluster(n)); at in g.mail && |g.mail[at]| > 0
  {
    var at := Addr(n, cfg.cluster(n));
    var m := g.mail[at][0];
    var g1 := g.(mail := g.mail[at := g.mail[at][1..]]);
    match m
    case Ask(_, session, Send(toNode, name, from, data)) =>
      Become(cfg, g1, n, Dispatch(g.clusters[n], toNode, Request(name, from, session, data)), [])
    case Ask(_, session, Plain(data)) =>
      var c := cfg.command(data);
      if c.None? then g1
      else Become(cfg, g1, n, Dispatch(g.clusters[n], c.value.toNode,
        Request(c.value.name, c.value.from, session, c.value.data)), [])
    case Answer(session, isOk, data) =>
      var (k, es) := OnResponse(cfg.json, g.clusters[n], session, isOk, data);
      Become(cfg, g1, n, k, es)
  }

  /** The connection is accepted under a fresh descriptor and the client's connect callback runs. */
  function Accept(cfg: Config, g: System, n: nat, c: nat): System
    requires n in g.clusters && Addr(n, c) in g.conns && Addr(n, c) in g.history.dialed
    requires g.history.dialed[Addr(n, c)] in g.nextFd
  {
    var id, m := Addr(n, c), g.history.dialed[Addr(n, c)];
    var fd := g.nextFd[m];
    var (k, es) := OnConnect(g.clusters[n], c);
    Become(cfg,
           g.(conns := g.conns[id := g.conns[id].(fd := Some(fd))], nextFd := g.nextFd[m := fd + 1],
              history := g.history.(peers := g.history.peers[Addr(m, fd) := id])),
           n, k, es)
  }

  function GivenBy(at: Addr, duty: Duty, isOk: bool, data: Bytes): Given {
    Given(at, Key(Addr(at.node, duty.source), duty.session), isOk, data)
  }

  ghost predicate Enabled(cfg: Config, g: System, e: Event) {
    match e
    case CallRemote(at, _, _, _) => at in g.apps
    case SendRemote(at, _, _, _) => at in g.apps
    case CallLocal(at, _, _) => at in g.apps
    case SendLocal(at, _, _) => at in g.apps
    case AppTake(at) => at in g.apps && at in g.mail && |g.mail[at]| > 0
    case AppAnswer(at, duty, _, _) => at in g.apps && duty in g.apps[at].duties
    case AppTimeout(at, session) => at in g.apps && session in g.apps[at].waiting
    case Lose(at) => at in g.mail && |g.mail[at]| > 0
    case ClusterTake(n) => n in g.clusters && var at := Addr(n, cfg.cluster(n)); at in g.mail && |g.mail[at]| > 0
    case ClusterRun(n, i, _, _) => n in g.clusters && i < |g.clusters[n].nextCoro|
    case ClusterTimeout(n, _) => n in g.clusters
    case HttpDone(n, h, _, _) => n in g.clusters && h in g.clusters[n].httpCoro && g.clusters[n].httpCoro[h].Relay?
    case Connected(n, c) =>
      && n in g.clusters && Addr(n, c) in g.conns && g.conns[Addr(n, c)].fd.None?
      && Addr(n, c) in g.history.dialed && g.history.dialed[Addr(n, c)] in g.nextFd
    case ConnectFailed(n, c) => n in g.clusters
    case Closed(n, c) => n in g.clusters && Addr(n, c) in g.conns
    case ClientRead(n, c) => n in g.clusters && Addr(n, c) in g.conns && |g.conns[Addr(n, c)].down| > 0
    case ServerRead(n, c) =>
      && Addr(n, c) in g.conns && |g.conns[Addr(n, c)].up| > 0 && g.conns[Addr(n, c)].fd.Some?
      && Addr(n, c) in g.history.dialed && g.history.dialed[Addr(n, c)] in g.clusters
  }

  /** The caller's session that a relayed request belongs to. */
  function Sender(n: nat, task: Task): Key
    requires task.Relay?
  {
    Key(Addr(n, task.from), task.session)
  }

  /**
   The call that fails in this very event: the one whose session at the serving node runs out of time; the one whose
   request asks for a name nobody has; or the one whose request waits for the connection that cannot be made.
   */
  ghost function FailedBy(cfg: Config, g: System, e: Event): set<Failure>
    requires Enabled(cfg, g, e)
  {
    match e
    case ClusterTimeout(m, t) =>
      if t in g.clusters[m].callCoro && Mine(cfg, m, t) in g.history.serves
      then {Failure(g.history.serves[Mine(cfg, m, t)], m, NoAnswer)} else {}
    case ServerRead(n, c) =>
      var m := g.history.dialed[Addr(n, c)];
      (match DecodeRequest(g.conns[Addr(n, c)].up[0])
       case Parsed(r, _) =>
         if cfg.lookup(m, r.name) == 0 && r.session > 0
         then {Failure(Key(Addr(n, r.from), r.session), m, NotFound)} else {}
       case Malformed => {})
    case HttpDone(n, x, found, connectOk) =>
      var task := g.clusters[n].httpCoro[x];
      if found && !connectOk then {Failure(Sender(n, task), task.toNode, NotConnected)} else {}
    case ConnectFailed(n, c) =>
      if c in g.clusters[n].clients && g.clusters[n].clients[c].Relay?
      then {Failure(Sender(n, g.clusters[n].clients[c]), g.clusters[n].clients[c].toNode, NotConnected)} else {}
    case _ => {}
  }

  /** The state with the event's failure on record. */
  ghost function Noting(cfg: Config, g: System, e: Event): System
    requires Enabled(cfg, g, e)
  {
    g.(history := g.history.(failed := g.history.failed + FailedBy(cfg, g, e)))
  }

  ghost predicate FailsAt(cfg: Config, g: System, e: Event, f: Failure) {
    Enabled(cfg, g, e) && f in FailedBy(cfg, g, e)
  }

  ghost function Apply(cfg: Config, g: System, e: Event): System
    requires Enabled(cfg, g, e)
  {
    Move(cfg, Noting(cfg, g, e), e)
  }

  ghost function Move(cfg: Config, g: System, e: Event): System
    requires Enabled(cfg, g, e)
  {
    match e
    case CallRemote(at, toNode, name, data) =>
      Issue(g, at, Remote(toNode, name, data), Addr(at.node, cfg.cluster(at.node)),
        Send(toNode, name, at.service, data))
    case SendRemote(at, toNode, name, data) =>
      Push(g, Addr(at.node, cfg.cluster(at.node)), Ask(at.service, 0, Send(toNode, name, at.service, data)))
    case CallLocal(at, service, data) => Issue(g, at, Local(service, data), Addr(at.node, service), Plain(data))
    case SendLocal(at, service, data) => Push(g, Addr(at.node, service), Ask(at.service, 0, Plain(data)))
    case AppTake(at) => TakeApp(g, at)
    case AppAnswer(at, duty, isOk, data) =>
      Push(g.(history := g.history.(given := g.history.given + {GivenBy(at, duty, isOk, data)})),
           Addr(at.node, duty.source), Answer(duty.session, isOk, data))
    case AppTimeout(at, session) =>
      g.(apps := g.apps[at := g.apps[at].(waiting := g.apps[at].waiting - {session})],
         results := g.results + [Result(Key(at, session), TimedOut)])
    case Lose(at) => g.(mail := g.mail[at := g.mail[at][1..]])
    case ClusterTake(n) => TakeCluster(cfg, g, n)
    case ClusterRun(n, i, sendOk, started) =>
      var (k, es) := Resume(cfg.json, g.clusters[n], i, sendOk, started);
      Become(cfg, g, n, k, es)
    case ClusterTimeout(n, session) =>
      var (k, es) := OnTimeout(g.clusters[n], session);
      Become(cfg, g, n, k, es)
    case HttpDone(n, h, found, connectOk) =>
      var (k, es) := HttpReply(g.clusters[n], h, found, connectOk);
      Become(cfg, g, n, k, es)
    case Connected(n, c) => Accept(cfg, g, n, c)
    case ConnectFailed(n, c) => Become(cfg, g, n, g.clusters[n], OnConnectError(g.clusters[n], c))
    case Closed(n, c) =>
      Become(cfg, g.(conns := g.conns[Addr(n, c) := g.conns[Addr(n, c)].(down := [])]), n,
             OnClose(g.clusters[n], c), [])
    case ClientRead(n, c) =>
      var conn := g.conns[Addr(n, c)];
      Become(cfg, g.(conns := g.conns[Addr(n, c) := conn.(down := conn.down[1..])]), n, g.clusters[n],
             OnClientMsg(cfg.json, g.clusters[n], c, conn.down[0]))
    case ServerRead(n, c) =>
      var conn, m := g.conns[Addr(n, c)], g.history.dialed[Addr(n, c)];
      var (k, es) := OnServerMsg(cfg.json, name => cfg.lookup(m, name), g.clusters[m], conn.fd.value, conn.up[0]);
      Become(cfg, g.(conns := g.conns[Addr(n, c) := conn.(up := conn.up[1..])]), m, k, es)
  }

  // ---------------------------------------------------------------- runs

  ghost predicate Init(cfg: Config, g: System) {
    && (forall n :: n in g.clusters ==> g.clusters[n] == State([], map[], map[], map[], map[], 1, 1))
    && (forall at :: at in g.apps ==> g.apps[at] == App(1, {}, {}) && at.service != cfg.cluster(at.node))
    && (forall at :: at in g.mail ==> g.mail[at] == [])
    && g.conns == map[] && g.history == History(map[], map[], map[], map[], {}, {}) && g.results == []
  }

  ghost predicate IsRun(cfg: Config, states: seq<System>, events: seq<Event>) {
    && |states| == |events| + 1 && Init(cfg, states[0])
    && forall i :: 0 <= i < |events| ==>
      Enabled(cfg, states[i], events[i]) && states[i + 1] == Apply(cfg, states[i], events[i])
  }

  /** In state `g`, event `e` is a service's call `call`, and `key` is the session it gets. */
  ghost predicate Issues(g: System, e: Event, key: Key, call: Call) {
    match e
    case CallRemote(at, toNode, name, data) =>
      at in g.apps && key == Key(at, g.apps[at].autoSession) && call == Remote(toNode, name, data)
    case CallLocal(at, service, data) =>
      at in g.apps && key == Key(at, g.apps[at].autoSession) && call == Local(service, data)
    case _ => false
  }

  /**
   A request to relay that did not come through lualib/cluster.lua names its own sender as the one to answer. The
   script does not compare the two; this is the comparison it could make where it takes the request.
   */
  ghost predicate HonestStep(cfg: Config, g: System, e: Event)
    requires Enabled(cfg, g, e)
  {
    e.ClusterTake? ==>
      match g.mail[Addr(e.node, cfg.cluster(e.node))][0]
      case Ask(source, session, Plain(data)) =>
        session > 0 && cfg.command(data).Some? ==> cfg.command(data).value.from == source
      case _ => true
  }

  ghost predicate Honest(cfg: Config, states: seq<System>, events: seq<Event>)
    requires IsRun(cfg, states, events)
  {
    forall i :: 0 <= i < |events| ==> HonestStep(cfg, states[i], events[i])
  }
}
