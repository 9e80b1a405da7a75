/**
 Which answer reaches which waiting call: in every run of a ClusterSystem, each frame, message, coroutine and table
 entry is traced back to the session it belongs to, and each answer to the handler that gave it.
 */
module ClusterRun {
  import opened Basics
  import opened Frames
  import opened ClusterService
  import opened ClusterSystem

  // ---------------------------------------------------------------- provenance

  /** What a call comes to: a request to relay, sent to the node's own cluster service, is a call to another node. */
  function Asked(cfg: Config, n: nat, call: Call): Call {
    if call.Local? && call.service == cfg.cluster(n) && cfg.command(call.data).Some? then
      var c := cfg.command(call.data).value;
      Remote(c.toNode, c.name, c.data)
    else call
  }

  /** The far cluster service's report that the call of this very session could not be made or got no answer. */
  ghost predicate Reported(cfg: Config, h: History, key: Key, m: nat, name: Bytes, isOk: bool, p: Bytes) {
    && !isOk
    && ((p == EMPTY && Failure(key, m, NoAnswer) in h.failed)
        || (p == NotFoundText(name) && cfg.lookup(m, name) == 0 && Failure(key, m, NotFound) in h.failed))
  }

  /** Session `t` of the cluster service of node `m` carries exactly what its caller's session asks of that node. */
  ghost predicate Serving(cfg: Config, h: History, m: nat, t: nat) {
    var mine := Mine(cfg, m, t);
    && mine in h.calls && mine in h.serves && h.serves[mine] in h.calls && h.serves[mine].session > 0
    && var asked := Asked(cfg, h.serves[mine].at.node, h.calls[h.serves[mine]]);
    && asked.Remote? && asked.toNode == m
    && h.calls[mine] == Local(cfg.lookup(m, asked.name), cfg.json.again(asked.data))
  }

  /** `p` is packed from an answer `q` to session `t` of node `m`'s cluster service, which serves session `key`. */
  ghost predicate Via(cfg: Config, h: History, d: nat, key: Key, m: nat, t: nat, isOk: bool, q: Bytes, p: Bytes)
    decreases d, 1
  {
    && Serving(cfg, h, m, t) && h.serves[Mine(cfg, m, t)] == key
    && AnswersIn(cfg, h, d, Mine(cfg, m, t), isOk, q) && p == Packed(cfg.json, isOk, q)
  }

  /**
   An answer to session `key`, over at most `d` further nodes. A local call is answered by the handler of the service
   called, to that very session; a remote one by what was answered to the session that serves it on the far node, or
   by a report that this very call failed.
   */
  ghost predicate AnswersIn(cfg: Config, h: History, d: nat, key: Key, isOk: bool, data: Bytes)
    decreases d, 0
  {
    && key in h.calls
    && match Asked(cfg, key.at.node, h.calls[key])
       case Local(service, _) => Given(Addr(key.at.node, service), key, isOk, data) in h.given
       case Remote(m, name, _) =>
         || (!isOk && data == EMPTY && Failure(key, m, NotConnected) in h.failed)
         || exists p :: && data == cfg.json.again(p)
                       && (Reported(cfg, h, key, m, name, isOk, p) || (d > 0 && ViaAny(cfg, h, d - 1, key, m, isOk, p)))
  }

  ghost predicate ViaAny(cfg: Config, h: History, d: nat, key: Key, m: nat, isOk: bool, p: Bytes)
    decreases d, 2
  {
    exists t: nat, q :: Via(cfg, h, d, key, m, t, isOk, q, p)
  }

  ghost predicate AnswersCall(cfg: Config, h: History, key: Key, isOk: bool, data: Bytes) {
    key.session > 0 ==> exists d: nat :: AnswersIn(cfg, h, d, key, isOk, data)
  }

  /** The payload of a response frame on its way to session `key`. */
  ghost predicate PayloadFor(cfg: Config, h: History, key: Key, isOk: bool, p: Bytes) {
    key.session > 0 ==>
      && key in h.calls
      && var asked := Asked(cfg, key.at.node, h.calls[key]);
      && asked.Remote?
      && (Reported(cfg, h, key, asked.toNode, asked.name, isOk, p)
        || exists d: nat :: ViaAny(cfg, h, d, key, asked.toNode, isOk, p))
  }

  ghost predicate AsksRemote(cfg: Config, h: History, n: nat, r: Request, toNode: nat) {
    r.session > 0 ==>
      && Key(Addr(n, r.from), r.session) in h.calls
      && Asked(cfg, n, h.calls[Key(Addr(n, r.from), r.session)]) == Remote(toNode, r.name, r.data)
  }

  ghost predicate GoodUp(cfg: Config, h: History, n: nat, toNode: nat, frame: Bytes) {
    DecodeRequest(frame).Parsed? && AsksRemote(cfg, h, n, DecodeRequest(frame).value, toNode)
  }

  ghost predicate GoodDown(cfg: Config, h: History, n: nat, frame: Bytes) {
    && DecodeResponse(frame).Parsed?
    && var r := DecodeResponse(frame).value;
    PayloadFor(cfg, h, Key(Addr(n, r.to), r.session), r.isOk, r.data)
  }

  ghost predicate GoodMsg(cfg: Config, h: History, at: Addr, m: Msg) {
    match m
    case Ask(source, session, Plain(data)) =>
      session > 0 ==>
        && Key(Addr(at.node, source), session) in h.calls
        && h.calls[Key(Addr(at.node, source), session)] == Local(at.service, data)
    case Ask(_, session, Send(toNode, name, from, data)) =>
      AsksRemote(cfg, h, at.node, Request(name, from, session, data), toNode)
    case Answer(session, isOk, data) => AnswersCall(cfg, h, Key(at, session), isOk, data)
  }

  /** The request of caller (from, session) behind descriptor `fd` of node `m` asks `service` for `data`. */
  ghost predicate Serves(cfg: Config, h: History, m: nat, fd: nat, from: nat, session: nat, service: nat, data: Bytes) {
    && session > 0 && Addr(m, fd) in h.peers
    && var key := Asker(h, m, Back(fd, from, session));
    && key in h.calls
    && var asked := Asked(cfg, key.at.node, h.calls[key]);
    && asked.Remote? && asked.toNode == m && cfg.lookup(m, asked.name) == service && asked.data == data
  }

  ghost predicate GoodTask(cfg: Config, h: History, n: nat, t: Task) {
    match t
    case Relay(toNode, frame, from, session) =>
      && GoodUp(cfg, h, n, toNode, frame)
      && DecodeRequest(frame).value.from == from && DecodeRequest(frame).value.session == session
    case Serve(fd, service, from, session, data) => Serves(cfg, h, n, fd, from, session, service, data)
  }

  /** The answer to session `t` goes back to the very session it is made for. */
  ghost predicate GoodBack(cfg: Config, h: History, n: nat, t: nat, b: Back) {
    Serving(cfg, h, n, t) && Addr(n, b.fd) in h.peers && h.serves[Mine(cfg, n, t)] == Asker(h, n, b)
  }

  ghost predicate GoodCluster(cfg: Config, h: History, n: nat, k: State) {
    && (forall i :: 0 <= i < |k.nextCoro| ==> GoodTask(cfg, h, n, k.nextCoro[i]))
    && (forall x :: x in k.httpCoro ==> k.httpCoro[x].Relay? && GoodTask(cfg, h, n, k.httpCoro[x]))
    && (forall c :: c in k.clients ==>
          && k.clients[c].Relay? && GoodTask(cfg, h, n, k.clients[c])
          && Addr(n, c) in h.dialed && h.dialed[Addr(n, c)] == k.clients[c].toNode)
    && (forall m :: m in k.tcpClients ==>
          Addr(n, k.tcpClients[m]) in h.dialed && h.dialed[Addr(n, k.tcpClients[m])] == m)
    && (forall t :: t in k.callCoro ==> GoodBack(cfg, h, n, t, k.callCoro[t]))
    && k.autoSession > 0
  }

  ghost predicate GoodConn(cfg: Config, h: History, id: Addr, conn: Conn) {
    && id in h.dialed
    && (forall i :: 0 <= i < |conn.up| ==> GoodUp(cfg, h, id.node, h.dialed[id], conn.up[i]))
    && (forall i :: 0 <= i < |conn.down| ==> GoodDown(cfg, h, id.node, conn.down[i]))
    && (conn.fd.Some? ==>
          Addr(h.dialed[id], conn.fd.value) in h.peers
          && h.peers[Addr(h.dialed[id], conn.fd.value)] == id)
  }

  ghost predicate GoodApp(h: History, at: Addr, app: App) {
    && (forall s :: s in app.waiting ==> Key(at, s) in h.calls)
    && (forall d :: d in app.duties && d.session > 0 ==>
          && Key(Addr(at.node, d.source), d.session) in h.calls
          && h.calls[Key(Addr(at.node, d.source), d.session)] == Local(at.service, d.data))
    && app.autoSession > 0
  }

  ghost predicate GoodMail(cfg: Config, h: History, mail: map<Addr, seq<Msg>>) {
    forall at, i :: at in mail && 0 <= i < |mail[at]| ==> GoodMsg(cfg, h, at, mail[at][i])
  }

  ghost predicate GoodClusters(cfg: Config, h: History, clusters: map<nat, State>) {
    forall n :: n in clusters ==> GoodCluster(cfg, h, n, clusters[n])
  }

  ghost predicate GoodApps(h: History, apps: map<Addr, App>) {
    forall at :: at in apps ==> GoodApp(h, at, apps[at])
  }

  ghost predicate GoodConns(cfg: Config, h: History, conns: map<Addr, Conn>) {
    forall id :: id in conns ==> GoodConn(cfg, h, id, conns[id])
  }

  ghost predicate GoodResult(cfg: Config, h: History, apps: map<Addr, App>, r: Result) {
    && r.key in h.calls && r.key.session > 0
    && (r.outcome.Answered? ==> AnswersCall(cfg, h, r.key, r.outcome.isOk, r.outcome.data))
    && r.key.at in apps && r.key.session !in apps[r.key.at].waiting
  }

  /** Every resumption answers the session it resumed, and no session is resumed twice. */
  ghost predicate GoodResults(cfg: Config, h: History, apps: map<Addr, App>, results: seq<Result>) {
    && (forall i :: 0 <= i < |results| ==> GoodResult(cfg, h, apps, results[i]))
    && (forall i, j :: 0 <= i < j < |results| ==> results[i].key != results[j].key)
  }

  /** Sessions in use are below the counters that hand them out. */
  ghost predicate FreshCalls(cfg: Config, h: History, apps: map<Addr, App>, clusters: map<nat, State>) {
    && (forall key :: key in h.calls ==>
          && key.session > 0
          && (key.at in apps ==> key.session < apps[key.at].autoSession)
          && (key.at.node in clusters && key.at.service == cfg.cluster(key.at.node) ==>
                key.session < clusters[key.at.node].autoSession))
    && h.serves.Keys <= h.calls.Keys
    && (forall at :: at in apps ==> at.service != cfg.cluster(at.node))
  }

  /** So are descriptors and client ids. */
  ghost predicate FreshIds(h: History, clusters: map<nat, State>, nextFd: map<nat, nat>) {
    && (forall id :: id in h.peers ==> id.node in nextFd && id.service < nextFd[id.node])
    && (forall id :: id in h.dialed ==> id.node in clusters && id.service < clusters[id.node].nextClient)
  }

  ghost predicate Inv(cfg: Config, g: System) {
    && GoodClusters(cfg, g.history, g.clusters)
    && GoodApps(g.history, g.apps)
    && GoodMail(cfg, g.history, g.mail)
    && GoodConns(cfg, g.history, g.conns)
    && GoodResults(cfg, g.history, g.apps, g.results)
    && FreshCalls(cfg, g.history, g.apps, g.clusters)
    && FreshIds(g.history, g.clusters, g.nextFd)
  }

  // ---------------------------------------------------------------- preservation

  ghost predicate Grow(h: History, h': History) {
    && (forall key :: key in h.calls ==> key in h'.calls && h'.calls[key] == h.calls[key])
    && (forall id :: id in h.dialed ==> id in h'.dialed && h'.dialed[id] == h.dialed[id])
    && (forall id :: id in h.peers ==> id in h'.peers && h'.peers[id] == h.peers[id])
    && (forall key :: key in h.serves ==> key in h'.serves && h'.serves[key] == h.serves[key])
    && h.given <= h'.given && h.failed <= h'.failed
  }

  lemma {:induction false} AnswersGrow(cfg: Config, h: History, h': History, d: nat, key: Key, isOk: bool, data: Bytes)
    requires Grow(h, h') && AnswersIn(cfg, h, d, key, isOk, data)
    ensures AnswersIn(cfg, h', d, key, isOk, data)
    decreases d, 0
  {
    var asked := Asked(cfg, key.at.node, h.calls[key]);
    if asked.Remote? && !(!isOk && data == EMPTY && Failure(key, asked.toNode, NotConnected) in h.failed) {
      var p :| data == cfg.json.again(p)
        && (Reported(cfg, h, key, asked.toNode, asked.name, isOk, p)
          || (d > 0 && ViaAny(cfg, h, d - 1, key, asked.toNode, isOk, p)));
      if !Reported(cfg, h, key, asked.toNode, asked.name, isOk, p) {
        ViaGrows(cfg, h, h', d - 1, key, asked.toNode, isOk, p);
      }
    }
  }

  lemma {:induction false} ViaGrows(cfg: Config, h: History, h': History, d: nat, key: Key, m: nat, isOk: bool,
      p: Bytes)
    requires Grow(h, h') && ViaAny(cfg, h, d, key, m, isOk, p)
    ensures ViaAny(cfg, h', d, key, m, isOk, p)
    decreases d, 2
  {
    var t: nat, q :| Via(cfg, h, d, key, m, t, isOk, q, p);
    AnswersGrow(cfg, h, h', d, Mine(cfg, m, t), isOk, q);
    assert Via(cfg, h', d, key, m, t, isOk, q, p);
  }

  lemma AnswersCallGrows(cfg: Config, h: History, h': History, key: Key, isOk: bool, data: Bytes)
    requires Grow(h, h') && AnswersCall(cfg, h, key, isOk, data)
    ensures AnswersCall(cfg, h', key, isOk, data)
  {
    hide AnswersIn, Grow;
    if key.session > 0 {
      var d: nat :| AnswersIn(cfg, h, d, key, isOk, data);
      AnswersGrow(cfg, h, h', d, key, isOk, data);
    }
  }

  lemma PayloadGrows(cfg: Config, h: History, h': History, key: Key, isOk: bool, p: Bytes)
    requires Grow(h, h') && PayloadFor(cfg, h, key, isOk, p)
    ensures PayloadFor(cfg, h', key, isOk, p)
  {
    hide ViaAny;
    if key.session > 0 {
      var asked := Asked(cfg, key.at.node, h.calls[key]);
      if !Reported(cfg, h, key, asked.toNode, asked.name, isOk, p) {
        var d: nat :| ViaAny(cfg, h, d, key, asked.toNode, isOk, p);
        ViaGrows(cfg, h, h', d, key, asked.toNode, isOk, p);
      }
    }
  }

  lemma TaskGrows(cfg: Config, h: History, h': History, n: nat, t: Task)
    requires Grow(h, h') && GoodTask(cfg, h, n, t)
    ensures GoodTask(cfg, h', n, t)
  {
    hide DecodeRequest, DecodeResponse;
  }

  lemma ClusterGrows(cfg: Config, h: History, h': History, n: nat, k: State)
    requires Grow(h, h') && GoodCluster(cfg, h, n, k)
    ensures GoodCluster(cfg, h', n, k)
  {
    hide DecodeRequest, DecodeResponse;
    forall i | 0 <= i < |k.nextCoro| ensures GoodTask(cfg, h', n, k.nextCoro[i]) {
      TaskGrows(cfg, h, h', n, k.nextCoro[i]);
    }
    forall x | x in k.httpCoro ensures GoodTask(cfg, h', n, k.httpCoro[x]) {
      TaskGrows(cfg, h, h', n, k.httpCoro[x]);
    }
    forall c | c in k.clients ensures GoodTask(cfg, h', n, k.clients[c]) {
      TaskGrows(cfg, h, h', n, k.clients[c]);
    }
  }

  lemma ConnGrows(cfg: Config, h: History, h': History, id: Addr, conn: Conn)
    requires Grow(h, h') && GoodConn(cfg, h, id, conn)
    ensures GoodConn(cfg, h', id, conn)
  {
    hide DecodeRequest, DecodeResponse;
    forall i | 0 <= i < |conn.up| ensures GoodUp(cfg, h', id.node, h'.dialed[id], conn.up[i]) {
      assert GoodUp(cfg, h, id.node, h.dialed[id], conn.up[i]);
    }
    forall i | 0 <= i < |conn.down| ensures GoodDown(cfg, h', id.node, conn.down[i]) {
      assert GoodDown(cfg, h, id.node, conn.down[i]);
      var r := DecodeResponse(conn.down[i]).value;
      PayloadGrows(cfg, h, h', Key(Addr(id.node, r.to), r.session), r.isOk, r.data);
    }
  }

  lemma MailGrows(cfg: Config, h: History, h': History, mail: map<Addr, seq<Msg>>)
    requires Grow(h, h') && GoodMail(cfg, h, mail)
    ensures GoodMail(cfg, h', mail)
  {
    hide DecodeRequest, DecodeResponse;
    forall at, i | at in mail && 0 <= i < |mail[at]| ensures GoodMsg(cfg, h', at, mail[at][i]) {
      MsgGrows(cfg, h, h', at, mail[at][i]);
    }
  }

  lemma MsgGrows(cfg: Config, h: History, h': History, at: Addr, m: Msg)
    requires Grow(h, h') && GoodMsg(cfg, h, at, m)
    ensures GoodMsg(cfg, h', at, m)
  {
    hide AnswersCall;
    if m.Answer? {
      AnswersCallGrows(cfg, h, h', Key(at, m.session), m.isOk, m.data);
    }
  }

  /** What a foreign call may carry. */
  ghost predicate GoodEffect(cfg: Config, h: History, n: nat, e: Effect) {
    match e
    case SendClient(c, frame) => Addr(n, c) in h.dialed && GoodUp(cfg, h, n, h.dialed[Addr(n, c)], frame)
    case SendServer(fd, frame) =>
      Addr(n, fd) in h.peers ==> GoodDown(cfg, h, h.peers[Addr(n, fd)].node, frame)
    case PostCall(service, session, data) =>
      GoodMsg(cfg, h, Addr(n, service), Ask(cfg.cluster(n), session, Plain(data)))
    case PostResponse(service, session, isOk, data) => GoodMsg(cfg, h, Addr(n, service), Answer(session, isOk, data))
    case HttpGet(_, _) => true
    case Dial(c, node) => Addr(n, c) in h.dialed
  }

  lemma PushKeeps(cfg: Config, g: System, at: Addr, m: Msg)
    requires Inv(cfg, g) && GoodMsg(cfg, g.history, at, m)
    ensures Inv(cfg, Push(g, at, m))
  {
    hide DecodeRequest, DecodeResponse;
    var g' := Push(g, at, m);
    forall a, i | a in g'.mail && 0 <= i < |g'.mail[a]| ensures GoodMsg(cfg, g.history, a, g'.mail[a][i]) {
      if a == at && i == |g.mail[at]| {
      } else {
        assert g'.mail[a][i] == g.mail[a][i];
      }
    }
  }

  lemma ConnKeeps(cfg: Config, g: System, id: Addr, conn: Conn)
    requires Inv(cfg, g) && GoodConn(cfg, g.history, id, conn)
    ensures Inv(cfg, g.(conns := g.conns[id := conn]))
  {
    hide DecodeRequest, DecodeResponse;
  }

  lemma FrameUp(cfg: Config, h: History, id: Addr, conn: Conn, frame: Bytes)
    requires GoodConn(cfg, h, id, conn) && GoodUp(cfg, h, id.node, h.dialed[id], frame)
    ensures GoodConn(cfg, h, id, conn.(up := conn.up + [frame]))
  {
    hide DecodeRequest, DecodeResponse;
  }

  lemma FrameDown(cfg: Config, h: History, id: Addr, conn: Conn, frame: Bytes)
    requires GoodConn(cfg, h, id, conn) && GoodDown(cfg, h, id.node, frame)
    ensures GoodConn(cfg, h, id, conn.(down := conn.down + [frame]))
  {
    hide DecodeRequest, DecodeResponse;
  }

  lemma PerformKeeps(cfg: Config, g: System, n: nat, e: Effect)
    requires Inv(cfg, g) && GoodEffect(cfg, g.history, n, e)
    ensures Inv(cfg, Perform(cfg, g, n, e)) && Perform(cfg, g, n, e).history == g.history
  {
    hide DecodeRequest, DecodeResponse;
    match e
    case SendClient(c, frame) =>
      if Addr(n, c) in g.conns {
        var conn := g.conns[Addr(n, c)];
        FrameUp(cfg, g.history, Addr(n, c), conn, frame);
        ConnKeeps(cfg, g, Addr(n, c), conn.(up := conn.up + [frame]));
      }
    case SendServer(fd, frame) =>
      if Addr(n, fd) in g.history.peers && g.history.peers[Addr(n, fd)] in g.conns {
        var peer := g.history.peers[Addr(n, fd)];
        FrameDown(cfg, g.history, peer, g.conns[peer], frame);
        ConnKeeps(cfg, g, peer, g.conns[peer].(down := g.conns[peer].down + [frame]));
      }
    case PostCall(service, session, data) =>
      PushKeeps(cfg, g, Addr(n, service), Ask(cfg.cluster(n), session, Plain(data)));
    case PostResponse(service, session, isOk, data) => PushKeeps(cfg, g, Addr(n, service), Answer(session, isOk, data));
    case HttpGet(_, _) =>
    case Dial(c, node) =>
      assert GoodConn(cfg, g.history, Addr(n, c), Conn(None, [], []));
      ConnKeeps(cfg, g, Addr(n, c), Conn(None, [], []));
  }

  lemma {:induction false} PerformAllKeeps(cfg: Config, g: System, n: nat, es: seq<Effect>)
    requires Inv(cfg, g) && forall i :: 0 <= i < |es| ==> GoodEffect(cfg, g.history, n, es[i])
    ensures Inv(cfg, PerformAll(cfg, g, n, es))
    decreases |es|
  {
    hide DecodeRequest, DecodeResponse;
    if es != [] {
      PerformKeeps(cfg, g, n, es[0]);
      PerformAllKeeps(cfg, Perform(cfg, g, n, es[0]), n, es[1..]);
    }
  }

  /**
   A cluster service in state `k` may move to `k'` making foreign calls `es`: the new state and the calls agree with
   the history, which grows only by calls and connections this service just made.
   */
  ghost predicate GoodMove(cfg: Config, h: History, n: nat, k: State, k': State, es: seq<Effect>) {
    var h' := NotedAll(cfg, h, n, k', es);
    && Grow(h, h') && h'.peers == h.peers
    && k.autoSession <= k'.autoSession && k.nextClient <= k'.nextClient
    && (forall key :: key in h'.calls && key !in h.calls ==>
          key.at == Addr(n, cfg.cluster(n)) && 0 < key.session < k'.autoSession)
    && (forall id :: id in h'.dialed && id !in h.dialed ==> id.node == n && id.service < k'.nextClient)
    && (forall key :: key in h'.serves && key !in h.serves ==> key in h'.calls)
    && GoodCluster(cfg, h', n, k')
    && forall i :: 0 <= i < |es| ==> GoodEffect(cfg, h', n, es[i])
  }

  /** The ids a cluster service would hand out next are unused. */
  ghost predicate Unused(cfg: Config, h: History, n: nat, k: State) {
    && Mine(cfg, n, k.autoSession) !in h.calls && Mine(cfg, n, k.autoSession) !in h.serves
    && Addr(n, k.nextClient) !in h.dialed
  }

  lemma ClustersGrow(cfg: Config, h: History, h': History, n: nat, clusters: map<nat, State>, k: State)
    requires Grow(h, h') && GoodClusters(cfg, h, clusters) && GoodCluster(cfg, h', n, k)
    ensures GoodClusters(cfg, h', clusters[n := k])
  {
    hide DecodeRequest, DecodeResponse;
    forall m | m in clusters && m != n ensures GoodCluster(cfg, h', m, clusters[m]) {
      ClusterGrows(cfg, h, h', m, clusters[m]);
    }
  }

  lemma AppsGrow(h: History, h': History, apps: map<Addr, App>)
    requires Grow(h, h') && GoodApps(h, apps)
    ensures GoodApps(h', apps)
  {
    hide DecodeRequest, DecodeResponse;
  }

  lemma ConnsGrow(cfg: Config, h: History, h': History, conns: map<Addr, Conn>)
    requires Grow(h, h') && GoodConns(cfg, h, conns)
    ensures GoodConns(cfg, h', conns)
  {
    hide DecodeRequest, DecodeResponse;
    forall id | id in conns ensures GoodConn(cfg, h', id, conns[id]) {
      ConnGrows(cfg, h, h', id, conns[id]);
    }
  }

  lemma ResultsGrow(cfg: Config, h: History, h': History, apps: map<Addr, App>, results: seq<Result>)
    requires Grow(h, h') && GoodResults(cfg, h, apps, results)
    ensures GoodResults(cfg, h', apps, results)
  {
    hide DecodeRequest, DecodeResponse;
    forall i | 0 <= i < |results| ensures GoodResult(cfg, h', apps, results[i]) {
      var r := results[i];
      assert GoodResult(cfg, h, apps, r);
      if r.outcome.Answered? {
        AnswersCallGrows(cfg, h, h', r.key, r.outcome.isOk, r.outcome.data);
      }
    }
  }

  lemma InstallFresh(cfg: Config, g: System, n: nat, k: State, es: seq<Effect>)
    requires n in g.clusters && GoodMove(cfg, g.history, n, g.clusters[n], k, es)
    requires FreshCalls(cfg, g.history, g.apps, g.clusters) && FreshIds(g.history, g.clusters, g.nextFd)
    ensures var h' := NotedAll(cfg, g.history, n, k, es);
            FreshCalls(cfg, h', g.apps, g.clusters[n := k]) && FreshIds(h', g.clusters[n := k], g.nextFd)
  {
    hide DecodeRequest, DecodeResponse;
  }

  lemma PerformFrame(cfg: Config, g: System, n: nat, e: Effect)
    ensures var g' := Perform(cfg, g, n, e); g'.history == g.history && g'.apps == g.apps && g'.results == g.results
  {
  }

  lemma {:induction false} PerformAllFrame(cfg: Config, g: System, n: nat, es: seq<Effect>)
    ensures var g' := PerformAll(cfg, g, n, es);
            g'.history == g.history && g'.apps == g.apps && g'.results == g.results
    decreases |es|
  {
    hide Perform;
    if es != [] {
      PerformFrame(cfg, g, n, es[0]);
      PerformAllFrame(cfg, Perform(cfg, g, n, es[0]), n, es[1..]);
    }
  }

  lemma BecomeHistory(cfg: Config, g: System, n: nat, k: State, es: seq<Effect>)
    ensures Become(cfg, g, n, k, es).history == NotedAll(cfg, g.history, n, k, es)
        && Become(cfg, g, n, k, es).apps == g.apps && Become(cfg, g, n, k, es).results == g.results
  {
    hide PerformAll, NotedAll;
    PerformAllFrame(cfg, g.(clusters := g.clusters[n := k], history := NotedAll(cfg, g.history, n, k, es)), n, es);
  }

  lemma BecomeKeeps(cfg: Config, g: System, n: nat, k: State, es: seq<Effect>)
    requires Inv(cfg, g) && n in g.clusters && GoodMove(cfg, g.history, n, g.clusters[n], k, es)
    ensures Inv(cfg, Become(cfg, g, n, k, es)) && Grow(g.history, Become(cfg, g, n, k, es).history)
  {
    BecomeHistory(cfg, g, n, k, es);
    hide DecodeRequest, DecodeResponse;
    var h' := NotedAll(cfg, g.history, n, k, es);
    ClustersGrow(cfg, g.history, h', n, g.clusters, k);
    AppsGrow(g.history, h', g.apps);
    MailGrows(cfg, g.history, h', g.mail);
    ConnsGrow(cfg, g.history, h', g.conns);
    ResultsGrow(cfg, g.history, h', g.apps, g.results);
    InstallFresh(cfg, g, n, k, es);
    PerformAllKeeps(cfg, g.(clusters := g.clusters[n := k], history := h'), n, es);
  }

  // ---------------------------------------------------------------- the moves of a cluster service

  lemma NotedOne(cfg: Config, h: History, n: nat, k: State, e: Effect)
    ensures NotedAll(cfg, h, n, k, [e]) == Noted(cfg, h, n, k, e)
  {
    hide DecodeRequest, DecodeResponse;
    assert [e][1..] == [];
  }

  lemma RespondGood(cfg: Config, h: History, n: nat, k: State, fd: nat, r: Response)
    requires Addr(n, fd) in h.peers ==> PayloadFor(cfg, h, Asker(h, n, Back(fd, r.to, r.session)), r.isOk, r.data)
    ensures forall i :: 0 <= i < |Respond(fd, r)| ==> GoodEffect(cfg, h, n, Respond(fd, r)[i])
    ensures NotedAll(cfg, h, n, k, Respond(fd, r)) == h
  {
    hide DecodeRequest, DecodeResponse, PayloadFor;
    if EncodeResponse(r).Some? {
      ResponseRoundTrip(r, []);
      assert EncodeResponse(r).value + [] == EncodeResponse(r).value;
      NotedOne(cfg, h, n, k, SendServer(fd, EncodeResponse(r).value));
    }
  }

  /** A request packed for a node asks what its caller asked. */
  lemma DispatchGood(cfg: Config, h: History, n: nat, k: State, toNode: nat, r: Request)
    requires GoodCluster(cfg, h, n, k) && AsksRemote(cfg, h, n, r, toNode)
    ensures GoodMove(cfg, h, n, k, Dispatch(k, toNode, r), [])
  {
    hide DecodeRequest, DecodeResponse;
    if EncodeRequest(r).Some? {
      RequestRoundTrip(r, []);
      assert EncodeRequest(r).value + [] == EncodeRequest(r).value;
      assert GoodTask(cfg, h, n, Relay(toNode, EncodeRequest(r).value, r.from, r.session));
    }
  }

  /**
   The answer of a served call goes back to the very session it is made for: here one session is tied to the other.
   */
  lemma BackAnswer(cfg: Config, h: History, n: nat, t: nat, b: Back, isOk: bool, data: Bytes)
    requires GoodBack(cfg, h, n, t, b) && t > 0 && AnswersCall(cfg, h, Mine(cfg, n, t), isOk, data)
    ensures PayloadFor(cfg, h, Asker(h, n, b), isOk, Packed(cfg.json, isOk, data))
  {
    hide AnswersIn, Reported, Packed;
    var key := Asker(h, n, b);
    var d: nat :| AnswersIn(cfg, h, d, Mine(cfg, n, t), isOk, data);
    assert Via(cfg, h, d, key, n, t, isOk, data, Packed(cfg.json, isOk, data));
    assert ViaAny(cfg, h, d, key, n, isOk, Packed(cfg.json, isOk, data));
  }

  /** A payload decoded, packed again and posted answers the session it was on its way to. */
  lemma PayloadAnswers(cfg: Config, h: History, key: Key, isOk: bool, p: Bytes)
    requires PayloadFor(cfg, h, key, isOk, p)
    ensures AnswersCall(cfg, h, key, isOk, cfg.json.again(p))
  {
    hide Reported, ViaAny;
    if key.session > 0 {
      var asked := Asked(cfg, key.at.node, h.calls[key]);
      if Reported(cfg, h, key, asked.toNode, asked.name, isOk, p) {
        assert AnswersIn(cfg, h, 0, key, isOk, cfg.json.again(p));
      } else {
        var d: nat :| ViaAny(cfg, h, d, key, asked.toNode, isOk, p);
        assert AnswersIn(cfg, h, d + 1, key, isOk, cfg.json.again(p));
      }
    }
  }

  /** So does the empty failure a cluster service posts itself, to the session whose call failed. */
  lemma FailureAnswers(cfg: Config, h: History, n: nat, r: Request, toNode: nat)
    requires AsksRemote(cfg, h, n, r, toNode)
    requires Failure(Key(Addr(n, r.from), r.session), toNode, NotConnected) in h.failed
    ensures AnswersCall(cfg, h, Key(Addr(n, r.from), r.session), false, EMPTY)
  {
    if r.session > 0 {
      assert AnswersIn(cfg, h, 0, Key(Addr(n, r.from), r.session), false, EMPTY);
    }
  }

  lemma ResponseGood(cfg: Config, h: History, n: nat, k: State, t: nat, isOk: bool, data: Bytes)
    requires GoodCluster(cfg, h, n, k) && AnswersCall(cfg, h, Mine(cfg, n, t), isOk, data)
    requires t == 0 ==> t !in k.callCoro
    ensures var (k', es) := OnResponse(cfg.json, k, t, isOk, data); GoodMove(cfg, h, n, k, k', es)
  {
    hide DecodeRequest, DecodeResponse, Respond, AnswersCall, PayloadFor, Packed;
    if t in k.callCoro {
      var b, k' := k.callCoro[t], k.(callCoro := k.callCoro - {t});
      assert GoodBack(cfg, h, n, t, b);
      assert GoodCluster(cfg, h, n, k');
      hide GoodCluster;
      BackAnswer(cfg, h, n, t, b, isOk, data);
      hide GoodBack, Serving, GoodEffect;
      if !isOk || cfg.json.valid(data) {
        RespondGood(cfg, h, n, k', b.fd, Response(b.from, b.session, isOk, Packed(cfg.json, isOk, data)));
      }
    }
  }

  /** The history knows that session `t` of the cluster service of node `n` got no answer in time. */
  ghost predicate TimedOutAt(cfg: Config, h: History, n: nat, t: nat) {
    Mine(cfg, n, t) in h.serves && Failure(h.serves[Mine(cfg, n, t)], n, NoAnswer) in h.failed
  }

  /** No answer in time is reported to the very session the call is made for. */
  lemma TimeoutPayload(cfg: Config, h: History, n: nat, t: nat, b: Back)
    requires GoodBack(cfg, h, n, t, b) && TimedOutAt(cfg, h, n, t)
    ensures PayloadFor(cfg, h, Asker(h, n, b), false, EMPTY)
  {
  }

  lemma TimeoutGood(cfg: Config, h: History, n: nat, k: State, t: nat)
    requires GoodCluster(cfg, h, n, k) && (t in k.callCoro ==> TimedOutAt(cfg, h, n, t))
    ensures var (k', es) := OnTimeout(k, t); GoodMove(cfg, h, n, k, k', es)
  {
    hide DecodeRequest, DecodeResponse, Respond, PayloadFor;
    if t in k.callCoro {
      var b, k' := k.callCoro[t], k.(callCoro := k.callCoro - {t});
      assert GoodBack(cfg, h, n, t, b);
      assert GoodCluster(cfg, h, n, k');
      hide GoodCluster;
      TimeoutPayload(cfg, h, n, t, b);
      hide GoodBack, Serving, GoodEffect;
      RespondGood(cfg, h, n, k', b.fd, Response(b.from, b.session, false, EMPTY));
    }
  }

  lemma BeginHttpGood(cfg: Config, h: History, n: nat, k: State, task: Task, node: nat, started: bool)
    requires GoodCluster(cfg, h, n, k) && task.Relay? && GoodTask(cfg, h, n, task)
    ensures var (k', es) := BeginHttp(k, task, node, started); GoodMove(cfg, h, n, k, k', es)
  {
    hide DecodeRequest, DecodeResponse;
    NotedOne(cfg, h, n, BeginHttp(k, task, node, started).0, HttpGet(k.autoSession, node));
  }

  lemma RemoveGood(cfg: Config, h: History, n: nat, k: State, i: nat)
    requires GoodCluster(cfg, h, n, k) && i < |k.nextCoro|
    ensures GoodCluster(cfg, h, n, k.(nextCoro := Remove(k.nextCoro, i)))
  {
    hide DecodeRequest, DecodeResponse;
    var rest := Remove(k.nextCoro, i);
    forall j | 0 <= j < |rest| ensures GoodTask(cfg, h, n, rest[j]) {
      assert rest[j] == k.nextCoro[if j < i then j else j + 1];
    }
  }

  lemma RelayGood(cfg: Config, h: History, n: nat, k: State, i: nat, sendOk: bool, started: bool)
    requires GoodCluster(cfg, h, n, k) && i < |k.nextCoro| && k.nextCoro[i].Relay?
    ensures var (k', es) := Resume(cfg.json, k, i, sendOk, started); GoodMove(cfg, h, n, k, k', es)
  {
    hide DecodeRequest, DecodeResponse;
    var task := k.nextCoro[i];
    assert GoodTask(cfg, h, n, task);
    RemoveGood(cfg, h, n, k, i);
    var k1 := k.(nextCoro := Remove(k.nextCoro, i));
    if task.toNode in k.tcpClients {
      var client := k.tcpClients[task.toNode];
      if sendOk {
        NotedOne(cfg, h, n, k1, SendClient(client, task.frame));
      } else {
        var k2 := k1.(clients := k1.clients - {client}, tcpClients := k1.tcpClients - {task.toNode});
        assert GoodCluster(cfg, h, n, k2);
        BeginHttpGood(cfg, h, n, k2, task, task.toNode, started);
      }
    } else {
      BeginHttpGood(cfg, h, n, k1, task, task.toNode, started);
    }
  }

  lemma CallGrows(cfg: Config, h: History, n: nat, k: State, call: Call, key: Key)
    requires Unused(cfg, h, n, k)
    ensures Grow(h, h.(calls := h.calls[Mine(cfg, n, k.autoSession) := call],
                       serves := h.serves[Mine(cfg, n, k.autoSession) := key]))
  {
  }

  /** The history after the cluster service called the target of a served request. */
  function Called(cfg: Config, h: History, n: nat, k: State, task: Task): History
    requires task.Serve?
  {
    var mine := Mine(cfg, n, k.autoSession);
    h.(calls := h.calls[mine := Local(task.service, cfg.json.again(task.data))],
       serves := h.serves[mine := Asker(h, n, Back(task.fd, task.from, task.session))])
  }

  lemma BackGood(cfg: Config, h: History, n: nat, k: State, task: Task)
    requires GoodCluster(cfg, h, n, k) && Unused(cfg, h, n, k) && task.Serve? && GoodTask(cfg, h, n, task)
    ensures var t, h' := k.autoSession, Called(cfg, h, n, k, task);
            && Grow(h, h')
            && GoodCluster(cfg, h', n,
              k.(callCoro := k.callCoro[t := Back(task.fd, task.from, task.session)], autoSession := t + 1))
  {
    hide DecodeRequest, DecodeResponse;
    var t, h' := k.autoSession, Called(cfg, h, n, k, task);
    CallGrows(cfg, h, n, k, Local(task.service, cfg.json.again(task.data)),
      Asker(h, n, Back(task.fd, task.from, task.session)));
    ClusterGrows(cfg, h, h', n, k);
    assert GoodBack(cfg, h', n, t, Back(task.fd, task.from, task.session));
    hide Grow, GoodBack, GoodTask;
  }

  lemma TaskOf(cfg: Config, h: History, n: nat, k: State, i: nat)
    requires GoodCluster(cfg, h, n, k) && i < |k.nextCoro|
    ensures GoodTask(cfg, h, n, k.nextCoro[i]) && k.autoSession > 0
  {
  }

  /** A served request becomes a call of this service, in a session of its own that remembers where to answer. */
  lemma ServeGood(cfg: Config, h: History, n: nat, k: State, i: nat, sendOk: bool, started: bool)
    requires GoodCluster(cfg, h, n, k) && Unused(cfg, h, n, k) && i < |k.nextCoro| && k.nextCoro[i].Serve?
    ensures var (k', es) := Resume(cfg.json, k, i, sendOk, started); GoodMove(cfg, h, n, k, k', es)
  {
    hide DecodeRequest, DecodeResponse, GoodCluster, GoodTask, Grow, Remove;
    var task, k1 := k.nextCoro[i], k.(nextCoro := Remove(k.nextCoro, i));
    TaskOf(cfg, h, n, k, i);
    RemoveGood(cfg, h, n, k, i);
    if !cfg.json.valid(task.data) {
      MoveSame(cfg, h, n, k, k1, []);
    } else {
      BackGood(cfg, h, n, k1, task);
      NotedOne(cfg, h, n, Resume(cfg.json, k, i, sendOk, started).0,
               PostCall(task.service, k.autoSession, cfg.json.again(task.data)));
    }
  }

  lemma DialGrows(cfg: Config, h: History, n: nat, k: State, node: nat)
    requires Unused(cfg, h, n, k)
    ensures Grow(h, h.(dialed := h.dialed[Addr(n, k.nextClient) := node]))
  {
    hide DecodeRequest, DecodeResponse;
  }

  lemma DialGood(cfg: Config, h: History, n: nat, k: State, x: nat)
    requires GoodCluster(cfg, h, n, k) && Unused(cfg, h, n, k) && x in k.httpCoro
    ensures var task, h' := k.httpCoro[x], h.(dialed := h.dialed[Addr(n, k.nextClient) := k.httpCoro[x].toNode]);
            && Grow(h, h') && GoodTask(cfg, h', n, task)
            && GoodCluster(cfg, h', n, k.(httpCoro := k.httpCoro - {x}, clients := k.clients[k.nextClient := task],
                                          nextClient := k.nextClient + 1))
  {
    hide GoodUp;
    var task := k.httpCoro[x];
    var h' := h.(dialed := h.dialed[Addr(n, k.nextClient) := task.toNode]);
    DialGrows(cfg, h, n, k, task.toNode);
    ClusterGrows(cfg, h, h', n, k);
    hide Grow;
  }

  lemma DialMove(cfg: Config, h: History, n: nat, k: State, k': State, node: nat, more: seq<Effect>)
    requires var h' := h.(dialed := h.dialed[Addr(n, k.nextClient) := node]);
             && Grow(h, h') && GoodCluster(cfg, h', n, k')
             && |more| <= 1 && (more != [] ==> more[0].PostResponse? && GoodEffect(cfg, h', n, more[0]))
    requires k'.autoSession == k.autoSession && k'.nextClient == k.nextClient + 1
    ensures GoodMove(cfg, h, n, k, k', [Dial(k.nextClient, node)] + more)
  {
    hide GoodCluster, Grow, GoodMsg;
    var d := Dial(k.nextClient, node);
    var h', es := Noted(cfg, h, n, k', d), [d] + more;
    assert es[1..] == more;
    if more == [] {
      assert NotedAll(cfg, h', n, k', more) == h';
    } else {
      assert more == [more[0]];
      NotedOne(cfg, h', n, k', more[0]);
    }
    assert NotedAll(cfg, h, n, k', es) == h';
    assert GoodEffect(cfg, h', n, es[0]);
    assert more != [] ==> es[1] == more[0];
  }

  /** The history knows that no connection could be made for the request. */
  ghost predicate Unconnected(h: History, n: nat, task: Task) {
    task.Relay? && Failure(Sender(n, task), task.toNode, NotConnected) in h.failed
  }

  lemma HttpFoundGood(cfg: Config, h: History, n: nat, k: State, x: nat, connectOk: bool)
    requires GoodCluster(cfg, h, n, k) && Unused(cfg, h, n, k) && x in k.httpCoro && k.httpCoro[x].Relay?
    requires !connectOk ==> Unconnected(h, n, k.httpCoro[x])
    ensures var (k', es) := HttpReply(k, x, true, connectOk); GoodMove(cfg, h, n, k, k', es)
  {
    hide DecodeRequest, DecodeResponse;
    DialGood(cfg, h, n, k, x);
    hide GoodCluster, Grow, GoodMove;
    var task, k' := k.httpCoro[x], HttpReply(k, x, true, connectOk).0;
    if !connectOk {
      FailureAnswers(cfg, h.(dialed := h.dialed[Addr(n, k.nextClient) := task.toNode]), n,
        DecodeRequest(task.frame).value, task.toNode);
    }
    hide AnswersCall;
    DialMove(cfg, h, n, k, k', task.toNode,
             if connectOk then [] else [PostResponse(task.from, task.session, false, EMPTY)]);
  }

  lemma HttpReplyGood(cfg: Config, h: History, n: nat, k: State, x: nat, found: bool, connectOk: bool)
    requires GoodCluster(cfg, h, n, k) && Unused(cfg, h, n, k) && x in k.httpCoro && k.httpCoro[x].Relay?
    requires found && !connectOk ==> Unconnected(h, n, k.httpCoro[x])
    ensures var (k', es) := HttpReply(k, x, found, connectOk); GoodMove(cfg, h, n, k, k', es)
  {
    hide GoodCluster, GoodMove, Unused, Unconnected;
    if found {
      HttpFoundGood(cfg, h, n, k, x, connectOk);
    } else {
      HttpDropped(cfg, h, n, k, x);
      MoveSame(cfg, h, n, k, k.(httpCoro := k.httpCoro - {x}), []);
    }
  }

  lemma HttpDropped(cfg: Config, h: History, n: nat, k: State, x: nat)
    requires GoodCluster(cfg, h, n, k)
    ensures GoodCluster(cfg, h, n, k.(httpCoro := k.httpCoro - {x}))
  {
    hide GoodTask, GoodBack;
  }

  lemma ConnectGood(cfg: Config, h: History, n: nat, k: State, c: nat)
    requires GoodCluster(cfg, h, n, k)
    ensures var (k', es) := OnConnect(k, c); GoodMove(cfg, h, n, k, k', es)
  {
    hide DecodeRequest, DecodeResponse;
    if c in k.clients && k.clients[c].Relay? {
      assert GoodTask(cfg, h, n, k.clients[c]);
      NotedOne(cfg, h, n, OnConnect(k, c).0, SendClient(c, k.clients[c].frame));
    }
  }

  lemma ConnectErrorGood(cfg: Config, h: History, n: nat, k: State, c: nat)
    requires GoodCluster(cfg, h, n, k)
    requires c in k.clients && k.clients[c].Relay? ==> Unconnected(h, n, k.clients[c])
    ensures GoodMove(cfg, h, n, k, k, OnConnectError(k, c))
  {
    hide DecodeRequest, DecodeResponse;
    if c in k.clients && k.clients[c].Relay? {
      var task := k.clients[c];
      assert GoodTask(cfg, h, n, task);
      var p := PostResponse(task.from, task.session, false, EMPTY);
      FailureAnswers(cfg, h, n, DecodeRequest(task.frame).value, task.toNode);
      hide GoodCluster, GoodTask, AnswersCall;
      assert GoodEffect(cfg, h, n, p);
      NotedOne(cfg, h, n, k, p);
    }
  }

  lemma CloseGood(cfg: Config, h: History, n: nat, k: State, c: nat)
    requires GoodCluster(cfg, h, n, k)
    ensures GoodMove(cfg, h, n, k, OnClose(k, c), [])
  {
    hide DecodeRequest, DecodeResponse;
  }

  lemma ClientMsgGood(cfg: Config, h: History, n: nat, k: State, c: nat, msg: Bytes)
    requires GoodCluster(cfg, h, n, k) && GoodDown(cfg, h, n, msg)
    ensures GoodMove(cfg, h, n, k, k, OnClientMsg(cfg.json, k, c, msg))
  {
    hide DecodeRequest, DecodeResponse;
    var es := OnClientMsg(cfg.json, k, c, msg);
    if es != [] {
      var r := DecodeResponse(msg).value;
      PayloadAnswers(cfg, h, Key(Addr(n, r.to), r.session), r.isOk, r.data);
      hide AnswersCall;
      NotedOne(cfg, h, n, k, es[0]);
    }
  }

  lemma PushTask(cfg: Config, h: History, n: nat, k: State, t: Task)
    requires GoodCluster(cfg, h, n, k) && GoodTask(cfg, h, n, t)
    ensures GoodCluster(cfg, h, n, k.(nextCoro := k.nextCoro + [t]))
  {
    hide GoodTask, GoodBack;
  }

  /** A move that records nothing. */
  lemma MoveSame(cfg: Config, h: History, n: nat, k: State, k': State, es: seq<Effect>)
    requires NotedAll(cfg, h, n, k', es) == h && GoodCluster(cfg, h, n, k')
    requires k.autoSession <= k'.autoSession && k.nextClient <= k'.nextClient
    requires forall i :: 0 <= i < |es| ==> GoodEffect(cfg, h, n, es[i])
    ensures GoodMove(cfg, h, n, k, k', es)
  {
    hide GoodCluster, GoodEffect, NotedAll;
  }

  lemma SendMsgGood(cfg: Config, h: History, n: nat, k: State, fd: nat, msg: Bytes)
    requires GoodCluster(cfg, h, n, k) && DecodeRequest(msg).Parsed? && DecodeRequest(msg).value.session == 0
    ensures var (k', es) := OnServerMsg(cfg.json, name => cfg.lookup(n, name), k, fd, msg);
            GoodMove(cfg, h, n, k, k', es)
  {
    hide DecodeRequest, GoodCluster, GoodMove, Respond;
    var r := DecodeRequest(msg).value;
    var (k', es) := OnServerMsg(cfg.json, name => cfg.lookup(n, name), k, fd, msg);
    var p := PostCall(cfg.lookup(n, r.name), 0, cfg.json.again(r.data));
    assert es == if cfg.json.valid(r.data) then [p] else [];
    NotedOne(cfg, h, n, k, p);
    MoveSame(cfg, h, n, k, k', es);
  }

  /** The history knows that the request read from a client of node `n` asks node `m` for a name nobody has. */
  ghost predicate Refused(cfg: Config, h: History, n: nat, m: nat, msg: Bytes) {
    match DecodeRequest(msg)
    case Parsed(r, _) =>
      cfg.lookup(m, r.name) == 0 && r.session > 0 ==> Failure(Key(Addr(n, r.from), r.session), m, NotFound) in h.failed
    case Malformed => true
  }

  lemma ServerMsgGood(cfg: Config, h: History, n: nat, k: State, fd: nat, msg: Bytes)
    requires GoodCluster(cfg, h, n, k) && Addr(n, fd) in h.peers && GoodUp(cfg, h, h.peers[Addr(n, fd)].node, n, msg)
    requires Refused(cfg, h, h.peers[Addr(n, fd)].node, n, msg)
    ensures var (k', es) := OnServerMsg(cfg.json, name => cfg.lookup(n, name), k, fd, msg);
            GoodMove(cfg, h, n, k, k', es)
  {
    hide DecodeRequest, Respond, GoodCluster, GoodMove, GoodEffect;
    var r := DecodeRequest(msg).value;
    if r.session == 0 {
      SendMsgGood(cfg, h, n, k, fd, msg);
    } else {
      var service := cfg.lookup(n, r.name);
      var (k', es) := OnServerMsg(cfg.json, name => cfg.lookup(n, name), k, fd, msg);
      var task := Serve(fd, service, r.from, r.session, r.data);
      PushTask(cfg, h, n, k, task);
      if service == 0 {
        RespondGood(cfg, h, n, k', fd, Response(r.from, r.session, false, NotFoundText(r.name)));
      }
      MoveSame(cfg, h, n, k, k', es);
    }
  }

  // ---------------------------------------------------------------- every event keeps the invariant

  /** What fails in the event is on record. */
  ghost predicate OnRecord(cfg: Config, g: System, e: Event)
    requires Enabled(cfg, g, e)
  {
    FailedBy(cfg, g, e) <= g.history.failed
  }

  lemma TimeoutOnRecord(cfg: Config, g: System, n: nat, t: nat)
    requires Enabled(cfg, g, ClusterTimeout(n, t)) && OnRecord(cfg, g, ClusterTimeout(n, t))
    requires GoodCluster(cfg, g.history, n, g.clusters[n])
    ensures t in g.clusters[n].callCoro ==> TimedOutAt(cfg, g.history, n, t)
  {
    hide GoodTask, DecodeRequest;
    if t in g.clusters[n].callCoro {
      assert GoodBack(cfg, g.history, n, t, g.clusters[n].callCoro[t]);
      assert Failure(g.history.serves[Mine(cfg, n, t)], n, NoAnswer) in FailedBy(cfg, g, ClusterTimeout(n, t));
    }
  }

  lemma HttpOnRecord(cfg: Config, g: System, n: nat, x: nat, found: bool, connectOk: bool)
    requires var e := HttpDone(n, x, found, connectOk); Enabled(cfg, g, e) && OnRecord(cfg, g, e)
    ensures found && !connectOk ==> Unconnected(g.history, n, g.clusters[n].httpCoro[x])
  {
    hide DecodeRequest;
    if found && !connectOk {
      var task := g.clusters[n].httpCoro[x];
      assert Failure(Sender(n, task), task.toNode, NotConnected) in FailedBy(cfg, g, HttpDone(n, x, found, connectOk));
    }
  }

  lemma ConnectOnRecord(cfg: Config, g: System, n: nat, c: nat)
    requires Enabled(cfg, g, ConnectFailed(n, c)) && OnRecord(cfg, g, ConnectFailed(n, c))
    ensures c in g.clusters[n].clients && g.clusters[n].clients[c].Relay? ==>
              Unconnected(g.history, n, g.clusters[n].clients[c])
  {
    hide DecodeRequest;
    if c in g.clusters[n].clients && g.clusters[n].clients[c].Relay? {
      var task := g.clusters[n].clients[c];
      assert Failure(Sender(n, task), task.toNode, NotConnected) in FailedBy(cfg, g, ConnectFailed(n, c));
    }
  }

  lemma ReadOnRecord(cfg: Config, g: System, n: nat, c: nat)
    requires Enabled(cfg, g, ServerRead(n, c)) && OnRecord(cfg, g, ServerRead(n, c))
    ensures Refused(cfg, g.history, n, g.history.dialed[Addr(n, c)], g.conns[Addr(n, c)].up[0])
  {
    hide DecodeRequest;
    var m := g.history.dialed[Addr(n, c)];
    match DecodeRequest(g.conns[Addr(n, c)].up[0])
    case Parsed(r, _) =>
      if cfg.lookup(m, r.name) == 0 && r.session > 0 {
        assert Failure(Key(Addr(n, r.from), r.session), m, NotFound) in FailedBy(cfg, g, ServerRead(n, c));
      }
    case Malformed =>
  }

  lemma ClusterUnused(cfg: Config, g: System, n: nat)
    requires Inv(cfg, g) && n in g.clusters
    ensures GoodCluster(cfg, g.history, n, g.clusters[n]) && Unused(cfg, g.history, n, g.clusters[n])
  {
    hide DecodeRequest, DecodeResponse;
  }

  lemma ConnShrinks(cfg: Config, g: System, id: Addr, conn: Conn)
    requires Inv(cfg, g) && id in g.conns && conn.fd == g.conns[id].fd
    requires |conn.up| <= |g.conns[id].up| && conn.up == g.conns[id].up[|g.conns[id].up| - |conn.up|..]
    requires |conn.down| <= |g.conns[id].down| && conn.down == g.conns[id].down[|g.conns[id].down| - |conn.down|..]
    ensures Inv(cfg, g.(conns := g.conns[id := conn]))
  {
    hide GoodClusters, GoodApps, GoodMail, GoodResults, FreshCalls, FreshIds, GoodUp, GoodDown;
    var before := g.conns[id];
    assert GoodConn(cfg, g.history, id, before);
    forall i | 0 <= i < |conn.up| ensures GoodUp(cfg, g.history, id.node, g.history.dialed[id], conn.up[i]) {
      assert conn.up[i] == before.up[|before.up| - |conn.up| + i];
    }
    forall i | 0 <= i < |conn.down| ensures GoodDown(cfg, g.history, id.node, conn.down[i]) {
      assert conn.down[i] == before.down[|before.down| - |conn.down| + i];
    }
  }

  lemma HeadsGood(cfg: Config, g: System, id: Addr)
    requires Inv(cfg, g) && id in g.conns
    ensures id in g.history.dialed
    ensures |g.conns[id].up| > 0 ==> GoodUp(cfg, g.history, id.node, g.history.dialed[id], g.conns[id].up[0])
    ensures |g.conns[id].down| > 0 ==> GoodDown(cfg, g.history, id.node, g.conns[id].down[0])
    ensures g.conns[id].fd.Some? ==>
              var fd := Addr(g.history.dialed[id], g.conns[id].fd.value);
              fd in g.history.peers && g.history.peers[fd] == id
  {
    hide DecodeRequest, DecodeResponse;
    assert GoodConn(cfg, g.history, id, g.conns[id]);
  }

  lemma LoseKeeps(cfg: Config, g: System, at: Addr)
    requires Inv(cfg, g) && at in g.mail && |g.mail[at]| > 0
    ensures Inv(cfg, g.(mail := g.mail[at := g.mail[at][1..]]))
  {
    hide DecodeRequest, DecodeResponse;
    var mail := g.mail[at := g.mail[at][1..]];
    forall a, i | a in mail && 0 <= i < |mail[a]| ensures GoodMsg(cfg, g.history, a, mail[a][i]) {
      assert mail[a][i] == g.mail[a][if a == at then i + 1 else i];
    }
  }

  /** History may grow under everything else. */
  lemma HistoryGrows(cfg: Config, g: System, h': History)
    requires Inv(cfg, g) && Grow(g.history, h')
    ensures GoodClusters(cfg, h', g.clusters) && GoodApps(h', g.apps) && GoodMail(cfg, h', g.mail)
    ensures GoodConns(cfg, h', g.conns) && GoodResults(cfg, h', g.apps, g.results)
  {
    hide GoodApp, GoodCluster, GoodConn, GoodMail, GoodResults, GoodApps, GoodConns, Grow;
    forall n | n in g.clusters ensures GoodCluster(cfg, h', n, g.clusters[n]) {
      ClusterGrows(cfg, g.history, h', n, g.clusters[n]);
    }
    AppsGrow(g.history, h', g.apps);
    MailGrows(cfg, g.history, h', g.mail);
    ConnsGrow(cfg, g.history, h', g.conns);
    ResultsGrow(cfg, g.history, h', g.apps, g.results);
  }

  lemma PeerFresh(g: System, m: nat, id: Addr)
    requires FreshIds(g.history, g.clusters, g.nextFd) && m in g.nextFd
    ensures var h' := g.history.(peers := g.history.peers[Addr(m, g.nextFd[m]) := id]);
            Grow(g.history, h') && FreshIds(h', g.clusters, g.nextFd[m := g.nextFd[m] + 1])
  {
  }

  lemma AcceptConn(cfg: Config, h: History, conns: map<Addr, Conn>, id: Addr, fd: nat)
    requires GoodConns(cfg, h, conns) && id in conns && id in h.dialed
    requires Addr(h.dialed[id], fd) in h.peers && h.peers[Addr(h.dialed[id], fd)] == id
    ensures GoodConns(cfg, h, conns[id := conns[id].(fd := Some(fd))])
  {
    hide GoodUp, GoodDown;
    assert GoodConn(cfg, h, id, conns[id]);
  }

  lemma AcceptInv(cfg: Config, g: System, id: Addr, fd: nat, m: nat)
    requires Inv(cfg, g) && id in g.conns && id in g.history.dialed && g.history.dialed[id] == m
    requires m in g.nextFd && fd == g.nextFd[m]
    ensures Inv(cfg, g.(conns := g.conns[id := g.conns[id].(fd := Some(fd))], nextFd := g.nextFd[m := fd + 1],
                        history := g.history.(peers := g.history.peers[Addr(m, fd) := id])))
    ensures Grow(g.history, g.history.(peers := g.history.peers[Addr(m, fd) := id]))
  {
    hide GoodClusters, GoodApps, GoodMail, GoodConns, GoodResults, FreshIds, Grow;
    var h' := g.history.(peers := g.history.peers[Addr(m, fd) := id]);
    PeerFresh(g, m, id);
    HistoryGrows(cfg, g, h');
    AcceptConn(cfg, h', g.conns, id, fd);
  }

  /** A connection gets a descriptor nobody had on that node, so answers sent on it reach this client only. */
  lemma AcceptKeeps(cfg: Config, g: System, n: nat, c: nat)
    requires Inv(cfg, g) && Enabled(cfg, g, Connected(n, c))
    ensures Inv(cfg, Accept(cfg, g, n, c)) && Grow(g.history, Accept(cfg, g, n, c).history)
  {
    hide Inv, GoodMove, GoodCluster, OnConnect, Become, Grow;
    var id, m := Addr(n, c), g.history.dialed[Addr(n, c)];
    var fd := g.nextFd[m];
    AcceptInv(cfg, g, id, fd, m);
    var g1 := g.(conns := g.conns[id := g.conns[id].(fd := Some(fd))], nextFd := g.nextFd[m := fd + 1],
                 history := g.history.(peers := g.history.peers[Addr(m, fd) := id]));
    ClusterUnused(cfg, g1, n);
    ConnectGood(cfg, g1.history, n, g.clusters[n], c);
    var (k, es) := OnConnect(g.clusters[n], c);
    BecomeKeeps(cfg, g1, n, k, es);
    GrowTwice(g.history, g1.history, Become(cfg, g1, n, k, es).history);
  }

  lemma GrowTwice(a: History, b: History, c: History)
    requires Grow(a, b) && Grow(b, c)
    ensures Grow(a, c)
  {
  }

  lemma ClientReadKeeps(cfg: Config, g: System, n: nat, c: nat)
    requires Inv(cfg, g) && Enabled(cfg, g, ClientRead(n, c))
    ensures Inv(cfg, Move(cfg, g, ClientRead(n, c))) && Grow(g.history, Move(cfg, g, ClientRead(n, c)).history)
  {
    hide DecodeRequest, DecodeResponse, Become, Inv, GoodMove, OnClientMsg;
    var conn := g.conns[Addr(n, c)];
    HeadsGood(cfg, g, Addr(n, c));
    ConnShrinks(cfg, g, Addr(n, c), conn.(down := conn.down[1..]));
    ClusterUnused(cfg, g, n);
    ClientMsgGood(cfg, g.history, n, g.clusters[n], c, conn.down[0]);
    BecomeKeeps(cfg, g.(conns := g.conns[Addr(n, c) := conn.(down := conn.down[1..])]), n, g.clusters[n],
                OnClientMsg(cfg.json, g.clusters[n], c, conn.down[0]));
  }

  lemma ServerReadKeeps(cfg: Config, g: System, n: nat, c: nat)
    requires Inv(cfg, g) && Enabled(cfg, g, ServerRead(n, c)) && OnRecord(cfg, g, ServerRead(n, c))
    ensures Inv(cfg, Move(cfg, g, ServerRead(n, c))) && Grow(g.history, Move(cfg, g, ServerRead(n, c)).history)
  {
    hide DecodeRequest, DecodeResponse, Become, Inv, GoodMove, OnServerMsg, OnRecord, Refused;
    var conn, m := g.conns[Addr(n, c)], g.history.dialed[Addr(n, c)];
    HeadsGood(cfg, g, Addr(n, c));
    ConnShrinks(cfg, g, Addr(n, c), conn.(up := conn.up[1..]));
    ClusterUnused(cfg, g, m);
    ReadOnRecord(cfg, g, n, c);
    ServerMsgGood(cfg, g.history, m, g.clusters[m], conn.fd.value, conn.up[0]);
    var (k, es) := OnServerMsg(cfg.json, name => cfg.lookup(m, name), g.clusters[m], conn.fd.value, conn.up[0]);
    BecomeKeeps(cfg, g.(conns := g.conns[Addr(n, c) := conn.(up := conn.up[1..])]), m, k, es);
  }

  lemma TakeAskKeeps(cfg: Config, g: System, n: nat, r: Request, toNode: nat)
    requires Inv(cfg, g) && n in g.clusters && AsksRemote(cfg, g.history, n, r, toNode)
    ensures var g' := Become(cfg, g, n, Dispatch(g.clusters[n], toNode, r), []);
            Inv(cfg, g') && Grow(g.history, g'.history)
  {
    hide Inv, GoodMove, Become, Dispatch, AsksRemote, Grow, Unused, GoodCluster;
    ClusterUnused(cfg, g, n);
    DispatchGood(cfg, g.history, n, g.clusters[n], toNode, r);
    BecomeKeeps(cfg, g, n, Dispatch(g.clusters[n], toNode, r), []);
  }

  lemma TakeAnswerKeeps(cfg: Config, g: System, n: nat, t: nat, isOk: bool, data: Bytes)
    requires Inv(cfg, g) && n in g.clusters && AnswersCall(cfg, g.history, Mine(cfg, n, t), isOk, data)
    ensures var (k, es) := OnResponse(cfg.json, g.clusters[n], t, isOk, data);
            var g' := Become(cfg, g, n, k, es); Inv(cfg, g') && Grow(g.history, g'.history)
  {
    hide GoodMove, Become, OnResponse, AnswersCall, Grow, Unused, GoodApps, GoodMail, GoodConns, GoodResults;
    ClusterUnused(cfg, g, n);
    var k := g.clusters[n];
    assert t in k.callCoro ==> GoodBack(cfg, g.history, n, t, k.callCoro[t]);
    assert t == 0 ==> t !in k.callCoro;
    hide Inv, GoodCluster;
    ResponseGood(cfg, g.history, n, k, t, isOk, data);
    var (k', es) := OnResponse(cfg.json, k, t, isOk, data);
    BecomeKeeps(cfg, g, n, k', es);
  }

  lemma TakeClusterKeeps(cfg: Config, g: System, n: nat)
    requires Inv(cfg, g) && Enabled(cfg, g, ClusterTake(n)) && HonestStep(cfg, g, ClusterTake(n))
    ensures Inv(cfg, TakeCluster(cfg, g, n)) && Grow(g.history, TakeCluster(cfg, g, n).history)
  {
    hide DecodeRequest, DecodeResponse, Become, OnResponse, Dispatch, AnswersCall;
    var at, h := Addr(n, cfg.cluster(n)), g.history;
    var m := g.mail[at][0];
    LoseKeeps(cfg, g, at);
    var g1 := g.(mail := g.mail[at := g.mail[at][1..]]);
    assert GoodMsg(cfg, h, at, m);
    hide Inv;
    match m
    case Ask(_, session, Send(toNode, name, from, data)) =>
      TakeAskKeeps(cfg, g1, n, Request(name, from, session, data), toNode);
    case Ask(source, session, Plain(data)) =>
      if cfg.command(data).Some? {
        var c := cfg.command(data).value;
        TakeAskKeeps(cfg, g1, n, Request(c.name, c.from, session, c.data), c.toNode);
      }
    case Answer(session, isOk, data) => TakeAnswerKeeps(cfg, g1, n, session, isOk, data);
  }

  lemma IssueFresh(cfg: Config, g: System, at: Addr, call: Call, app: App)
    requires Inv(cfg, g) && at in g.apps
    requires app == g.apps[at].(autoSession := g.apps[at].autoSession + 1,
                                waiting := g.apps[at].waiting + {g.apps[at].autoSession})
    ensures var h' := g.history.(calls := g.history.calls[Key(at, g.apps[at].autoSession) := call]);
            Grow(g.history, h') && FreshCalls(cfg, h', g.apps[at := app], g.clusters)
                && FreshIds(h', g.clusters, g.nextFd)
  {
    hide GoodClusters, GoodMail, GoodConns, GoodResults;
    assert GoodApp(g.history, at, g.apps[at]);
  }

  lemma IssueApps(cfg: Config, h: History, apps: map<Addr, App>, at: Addr, app: App)
    requires GoodApps(h, apps) && at in apps && Key(at, apps[at].autoSession) in h.calls
    requires app == apps[at].(autoSession := apps[at].autoSession + 1,
                              waiting := apps[at].waiting + {apps[at].autoSession})
    ensures GoodApps(h, apps[at := app])
  {
    assert GoodApp(h, at, apps[at]);
  }

  lemma IssueResults(cfg: Config, g: System, h': History, at: Addr, app: App)
    requires Inv(cfg, g) && at in g.apps && GoodResults(cfg, h', g.apps, g.results)
    requires app.waiting == g.apps[at].waiting + {g.apps[at].autoSession}
    ensures GoodResults(cfg, h', g.apps[at := app], g.results)
  {
    hide GoodClusters, GoodMail, GoodConns, GoodApps, AnswersCall;
    forall i | 0 <= i < |g.results| ensures GoodResult(cfg, h', g.apps[at := app], g.results[i]) {
      assert GoodResult(cfg, h', g.apps, g.results[i]);
      assert GoodResult(cfg, g.history, g.apps, g.results[i]);
    }
  }

  /** A call gets a session no call of that service ever had. */
  lemma IssueKeeps(cfg: Config, g: System, at: Addr, call: Call, to: Addr, body: Body)
    requires Inv(cfg, g) && at in g.apps
    requires var s := g.apps[at].autoSession;
             GoodMsg(cfg, g.history.(calls := g.history.calls[Key(at, s) := call]), to, Ask(at.service, s, body))
    ensures Inv(cfg, Issue(g, at, call, to, body)) && Grow(g.history, Issue(g, at, call, to, body).history)
  {
    var app := g.apps[at];
    var h' := g.history.(calls := g.history.calls[Key(at, app.autoSession) := call]);
    var app' := app.(autoSession := app.autoSession + 1, waiting := app.waiting + {app.autoSession});
    IssueFresh(cfg, g, at, call, app');
    HistoryGrows(cfg, g, h');
    IssueApps(cfg, h', g.apps, at, app');
    IssueResults(cfg, g, h', at, app');
    hide GoodClusters, GoodApps, GoodMail, GoodConns, GoodResults, FreshCalls, FreshIds, GoodMsg, Push, Grow;
    PushKeeps(cfg, g.(apps := g.apps[at := app'], history := h'), to, Ask(at.service, app.autoSession, body));
  }

  /** A coroutine is resumed: its session leaves the table and is never resumed again. */
  lemma ResumeKeeps(cfg: Config, g: System, at: Addr, session: nat, outcome: Outcome)
    requires Inv(cfg, g) && at in g.apps && session in g.apps[at].waiting
    requires outcome.Answered? ==> AnswersCall(cfg, g.history, Key(at, session), outcome.isOk, outcome.data)
    ensures Inv(cfg, g.(apps := g.apps[at := g.apps[at].(waiting := g.apps[at].waiting - {session})],
                        results := g.results + [Result(Key(at, session), outcome)]))
  {
    hide DecodeRequest, DecodeResponse;
    var app, h := g.apps[at], g.history;
    var apps := g.apps[at := app.(waiting := app.waiting - {session})];
    assert GoodApp(h, at, app);
    assert GoodApps(h, apps);
    var results := g.results + [Result(Key(at, session), outcome)];
    forall i | 0 <= i < |results| ensures GoodResult(cfg, h, apps, results[i]) {
      if i < |g.results| {
        assert GoodResult(cfg, h, g.apps, g.results[i]);
      }
    }
    forall i, j | 0 <= i < j < |results| ensures results[i].key != results[j].key {
      assert GoodResult(cfg, h, g.apps, g.results[i]);
    }
    assert FreshCalls(cfg, h, apps, g.clusters);
  }

  lemma TakeAppKeeps(cfg: Config, g: System, at: Addr)
    requires Inv(cfg, g) && Enabled(cfg, g, AppTake(at))
    ensures Inv(cfg, TakeApp(g, at))
  {
    hide DecodeRequest, DecodeResponse;
    var app, m := g.apps[at], g.mail[at][0];
    LoseKeeps(cfg, g, at);
    var g1 := g.(mail := g.mail[at := g.mail[at][1..]]);
    assert GoodMsg(cfg, g.history, at, m);
    match m
    case Ask(source, session, Plain(data)) =>
      var apps := g.apps[at := app.(duties := app.duties + {Duty(source, session, data)})];
      assert GoodApp(g.history, at, app);
      assert GoodApps(g.history, apps);
      forall i | 0 <= i < |g.results| ensures GoodResult(cfg, g.history, apps, g.results[i]) {
        assert GoodResult(cfg, g.history, g.apps, g.results[i]);
      }
      assert FreshCalls(cfg, g.history, apps, g.clusters);
    case Ask(_, _, Send(_, _, _, _)) =>
    case Answer(session, isOk, data) =>
      if session in app.waiting {
        ResumeKeeps(cfg, g1, at, session, Answered(isOk, data));
      }
  }

  /** A handler answering the source and session it was given answers that very session. */
  lemma DutyGood(cfg: Config, g: System, at: Addr, duty: Duty, isOk: bool, data: Bytes)
    requires Inv(cfg, g) && Enabled(cfg, g, AppAnswer(at, duty, isOk, data))
    ensures var h' := g.history.(given := g.history.given + {GivenBy(at, duty, isOk, data)});
            GoodMsg(cfg, h', Addr(at.node, duty.source), Answer(duty.session, isOk, data))
  {
    hide GoodClusters, GoodMail, GoodConns, GoodResults;
    assert GoodApp(g.history, at, g.apps[at]);
    var h' := g.history.(given := g.history.given + {GivenBy(at, duty, isOk, data)});
    if duty.session > 0 {
      assert AnswersIn(cfg, h', 0, Key(Addr(at.node, duty.source), duty.session), isOk, data);
    }
  }

  lemma GivenGrows(h: History, a: Given)
    ensures Grow(h, h.(given := h.given + {a}))
  {
  }

  lemma PushHistory(g: System, at: Addr, m: Msg)
    ensures Push(g, at, m).history == g.history
  {
  }

  lemma AnswerKeeps(cfg: Config, g: System, at: Addr, duty: Duty, isOk: bool, data: Bytes)
    requires Inv(cfg, g) && Enabled(cfg, g, AppAnswer(at, duty, isOk, data))
    ensures Inv(cfg, Move(cfg, g, AppAnswer(at, duty, isOk, data)))
    ensures Grow(g.history, Move(cfg, g, AppAnswer(at, duty, isOk, data)).history)
  {
    hide GoodClusters, GoodApps, GoodMail, GoodConns, GoodResults, GoodMsg, Push, Grow;
    assert Grow(g.history, g.history.(given := g.history.given + {GivenBy(at, duty, isOk, data)})) by {
      GivenGrows(g.history, GivenBy(at, duty, isOk, data));
    }
    var h' := g.history.(given := g.history.given + {GivenBy(at, duty, isOk, data)});
    DutyGood(cfg, g, at, duty, isOk, data);
    HistoryGrows(cfg, g, h');
    PushKeeps(cfg, g.(history := h'), Addr(at.node, duty.source), Answer(duty.session, isOk, data));
    PushHistory(g.(history := h'), Addr(at.node, duty.source), Answer(duty.session, isOk, data));
  }

  lemma AppStepKeeps(cfg: Config, g: System, e: Event)
    requires Inv(cfg, g) && Enabled(cfg, g, e)
    requires e.CallRemote? || e.SendRemote? || e.CallLocal? || e.SendLocal? || e.AppTake? || e.AppAnswer?
        || e.AppTimeout? || e.Lose?
    ensures Inv(cfg, Move(cfg, g, e)) && Grow(g.history, Move(cfg, g, e).history)
  {
    hide Inv, Become;
    match e
    case CallRemote(at, toNode, name, data) =>
      IssueKeeps(cfg, g, at, Remote(toNode, name, data), Addr(at.node, cfg.cluster(at.node)),
        Send(toNode, name, at.service, data));
    case SendRemote(at, toNode, name, data) =>
      PushKeeps(cfg, g, Addr(at.node, cfg.cluster(at.node)), Ask(at.service, 0, Send(toNode, name, at.service, data)));
    case CallLocal(at, service, data) =>
      IssueKeeps(cfg, g, at, Local(service, data), Addr(at.node, service), Plain(data));
    case SendLocal(at, service, data) => PushKeeps(cfg, g, Addr(at.node, service), Ask(at.service, 0, Plain(data)));
    case AppTake(at) => TakeAppKeeps(cfg, g, at);
    case AppAnswer(at, duty, isOk, data) =>
      AnswerKeeps(cfg, g, at, duty, isOk, data);
    case AppTimeout(at, session) => ResumeKeeps(cfg, g, at, session, TimedOut);
    case Lose(at) => LoseKeeps(cfg, g, at);
  }

  lemma MoveKeeps(cfg: Config, g: System, e: Event)
    requires Inv(cfg, g) && Enabled(cfg, g, e) && HonestStep(cfg, g, e) && OnRecord(cfg, g, e)
    ensures Inv(cfg, Move(cfg, g, e)) && Grow(g.history, Move(cfg, g, e).history)
  {
    hide DecodeRequest, DecodeResponse, Become, Inv, GoodMove, Resume, HttpReply, OnTimeout, OnConnect, OnConnectError,
      OnClose, Grow, OnRecord, TimedOutAt, Unconnected;
    match e
    case ClusterTake(n) => TakeClusterKeeps(cfg, g, n);
    case ClusterRun(n, i, sendOk, started) =>
      ClusterUnused(cfg, g, n);
      if g.clusters[n].nextCoro[i].Relay? {
        RelayGood(cfg, g.history, n, g.clusters[n], i, sendOk, started);
      } else {
        ServeGood(cfg, g.history, n, g.clusters[n], i, sendOk, started);
      }
      var (k, es) := Resume(cfg.json, g.clusters[n], i, sendOk, started);
      BecomeKeeps(cfg, g, n, k, es);
    case ClusterTimeout(n, session) =>
      ClusterUnused(cfg, g, n);
      TimeoutOnRecord(cfg, g, n, session);
      TimeoutGood(cfg, g.history, n, g.clusters[n], session);
      var (k, es) := OnTimeout(g.clusters[n], session);
      BecomeKeeps(cfg, g, n, k, es);
    case HttpDone(n, h, found, connectOk) =>
      ClusterUnused(cfg, g, n);
      HttpOnRecord(cfg, g, n, h, found, connectOk);
      HttpReplyGood(cfg, g.history, n, g.clusters[n], h, found, connectOk);
      var (k, es) := HttpReply(g.clusters[n], h, found, connectOk);
      BecomeKeeps(cfg, g, n, k, es);
    case Connected(n, c) => AcceptKeeps(cfg, g, n, c);
    case ConnectFailed(n, c) =>
      ClusterUnused(cfg, g, n);
      ConnectOnRecord(cfg, g, n, c);
      ConnectErrorGood(cfg, g.history, n, g.clusters[n], c);
      BecomeKeeps(cfg, g, n, g.clusters[n], OnConnectError(g.clusters[n], c));
    case Closed(n, c) =>
      var conn := g.conns[Addr(n, c)].(down := []);
      ConnShrinks(cfg, g, Addr(n, c), conn);
      ClusterUnused(cfg, g, n);
      CloseGood(cfg, g.history, n, g.clusters[n], c);
      BecomeKeeps(cfg, g.(conns := g.conns[Addr(n, c) := conn]), n, OnClose(g.clusters[n], c), []);
    case ClientRead(n, c) => ClientReadKeeps(cfg, g, n, c);
    case ServerRead(n, c) => ServerReadKeeps(cfg, g, n, c);
    case _ => AppStepKeeps(cfg, g, e);
  }

  lemma FailedGrows(h: History, fs: set<Failure>)
    ensures Grow(h, h.(failed := h.failed + fs))
  {
  }

  /** Taking down what fails changes nothing else. */
  lemma NotingKeeps(cfg: Config, g: System, e: Event)
    requires Inv(cfg, g) && Enabled(cfg, g, e)
    ensures var g1 := Noting(cfg, g, e);
            && Enabled(cfg, g1, e) && OnRecord(cfg, g1, e) && (HonestStep(cfg, g1, e) <==> HonestStep(cfg, g, e))
            && Inv(cfg, g1) && Grow(g.history, g1.history)
  {
    hide DecodeRequest, GoodClusters, GoodApps, GoodMail, GoodConns, GoodResults, Grow;
    FailedGrows(g.history, FailedBy(cfg, g, e));
    HistoryGrows(cfg, g, Noting(cfg, g, e).history);
    SameFailures(cfg, g, e);
  }

  lemma SameFailures(cfg: Config, g: System, e: Event)
    requires Enabled(cfg, g, e)
    ensures var g1 := Noting(cfg, g, e);
            Enabled(cfg, g1, e) && FailedBy(cfg, g1, e) == FailedBy(cfg, g, e)
  {
    hide DecodeRequest;
  }

  lemma StepKeeps(cfg: Config, g: System, e: Event)
    requires Inv(cfg, g) && Enabled(cfg, g, e) && HonestStep(cfg, g, e)
    ensures Inv(cfg, Apply(cfg, g, e)) && Grow(g.history, Apply(cfg, g, e).history)
  {
    hide Inv, Enabled, HonestStep, OnRecord, Grow, Noting, Move;
    var g1 := Noting(cfg, g, e);
    NotingKeeps(cfg, g, e);
    MoveKeeps(cfg, g1, e);
    GrowTwice(g.history, g1.history, Apply(cfg, g, e).history);
  }

  // ---------------------------------------------------------------- whole runs

  lemma {:induction false} RunKeeps(cfg: Config, states: seq<System>, events: seq<Event>, i: nat)
    requires IsRun(cfg, states, events) && Honest(cfg, states, events) && i < |states|
    ensures Inv(cfg, states[i])
    decreases i
  {
    hide Inv, Apply, Enabled, Init, HonestStep;
    if i > 0 {
      RunKeeps(cfg, states, events, i - 1);
      StepKeeps(cfg, states[i - 1], events[i - 1]);
    } else {
      InitKeeps(cfg, states[0]);
    }
  }

  lemma InitKeeps(cfg: Config, g: System)
    requires Init(cfg, g)
    ensures Inv(cfg, g)
  {
  }

  lemma RunStep(cfg: Config, states: seq<System>, events: seq<Event>, i: nat)
    requires IsRun(cfg, states, events) && Honest(cfg, states, events) && i + 1 < |states|
    ensures i < |events| && Enabled(cfg, states[i], events[i]) && HonestStep(cfg, states[i], events[i])
    ensures states[i + 1] == Apply(cfg, states[i], events[i])
  {
    hide Enabled, Apply, HonestStep, Init;
  }

  lemma {:induction false} RunGrows(cfg: Config, states: seq<System>, events: seq<Event>, i: nat, j: nat)
    requires IsRun(cfg, states, events) && Honest(cfg, states, events) && i <= j < |states|
    ensures Grow(states[i].history, states[j].history)
    decreases j
  {
    hide Inv, Apply, Enabled, Grow, HonestStep, IsRun, Honest;
    if i < j {
      RunGrows(cfg, states, events, i, j - 1);
      RunKeeps(cfg, states, events, j - 1);
      RunStep(cfg, states, events, j - 1);
      StepKeeps(cfg, states[j - 1], events[j - 1]);
      GrowTwice(states[i].history, states[j - 1].history, states[j].history);
    } else {
      GrowSame(states[i].history);
    }
  }

  lemma GrowSame(h: History)
    ensures Grow(h, h)
  {
  }

  // ---------------------------------------------------------------- what only certain events record

  /** From `h` to `h'` no answer was given, no call failed and no service but a cluster service issued a call. */
  ghost predicate Quiet(cfg: Config, h: History, h': History) {
    && h'.given == h.given && h'.failed == h.failed
    && forall key :: key in h'.calls && key.at.service != cfg.cluster(key.at.node) ==>
         key in h.calls && h'.calls[key] == h.calls[key]
  }

  lemma {:induction false} NotedQuiet(cfg: Config, h: History, n: nat, k: State, es: seq<Effect>)
    ensures Quiet(cfg, h, NotedAll(cfg, h, n, k, es))
    decreases |es|
  {
    if es != [] {
      NotedQuiet(cfg, Noted(cfg, h, n, k, es[0]), n, k, es[1..]);
    }
  }

  lemma BecomeQuiet(cfg: Config, g: System, n: nat, k: State, es: seq<Effect>)
    ensures Quiet(cfg, g.history, Become(cfg, g, n, k, es).history) && Become(cfg, g, n, k, es).results == g.results
  {
    hide Quiet, Become;
    BecomeHistory(cfg, g, n, k, es);
    NotedQuiet(cfg, g.history, n, k, es);
  }

  /** None of the foreign calls is a call that waits for an answer. */
  ghost predicate NoCalls(es: seq<Effect>) {
    forall i :: 0 <= i < |es| && es[i].PostCall? ==> es[i].session == 0
  }

  lemma {:induction false} NotedServes(cfg: Config, h: History, n: nat, k: State, es: seq<Effect>)
    requires NoCalls(es)
    ensures NotedAll(cfg, h, n, k, es).serves == h.serves
    decreases |es|
  {
    if es != [] {
      assert NoCalls(es[1..]);
      NotedServes(cfg, Noted(cfg, h, n, k, es[0]), n, k, es[1..]);
    }
  }

  lemma BecomeServes(cfg: Config, g: System, n: nat, k: State, es: seq<Effect>)
    requires NoCalls(es)
    ensures Become(cfg, g, n, k, es).history.serves == g.history.serves && Become(cfg, g, n, k, es).results == g.results
    ensures Quiet(cfg, g.history, Become(cfg, g, n, k, es).history)
  {
    hide Quiet, Become, NoCalls;
    BecomeHistory(cfg, g, n, k, es);
    NotedServes(cfg, g.history, n, k, es);
    BecomeQuiet(cfg, g, n, k, es);
  }

  /** The event only moves messages and table entries about. */
  ghost predicate Idle(cfg: Config, g: System, e: Event)
    requires Enabled(cfg, g, e)
  {
    Quiet(cfg, g.history, Move(cfg, g, e).history) && Move(cfg, g, e).history.serves == g.history.serves
  }

  lemma RespondNoCalls(fd: nat, r: Response)
    ensures NoCalls(Respond(fd, r))
  {
  }

  lemma ReplyNoCalls(json: Json, b: Back, isOk: bool, data: Bytes)
    ensures NoCalls(Reply(json, b, isOk, data))
  {
    hide Respond, Packed;
    RespondNoCalls(b.fd, Response(b.from, b.session, isOk, Packed(json, isOk, data)));
  }

  lemma TakeIdle(cfg: Config, g: System, n: nat)
    requires Enabled(cfg, g, ClusterTake(n))
    ensures Idle(cfg, g, ClusterTake(n)) && Move(cfg, g, ClusterTake(n)).results == g.results
  {
    hide Become, Dispatch, Quiet, NoCalls, Reply;
    var at := Addr(n, cfg.cluster(n));
    var m, g1, k := g.mail[at][0], g.(mail := g.mail[at := g.mail[at][1..]]), g.clusters[n];
    QuietSame(cfg, g.history);
    NoneNoCalls();
    match m
    case Ask(_, session, Send(toNode, name, from, data)) =>
      BecomeServes(cfg, g1, n, Dispatch(k, toNode, Request(name, from, session, data)), []);
    case Ask(_, session, Plain(data)) =>
      if cfg.command(data).Some? {
        var c := cfg.command(data).value;
        BecomeServes(cfg, g1, n, Dispatch(k, c.toNode, Request(c.name, c.from, session, c.data)), []);
      }
    case Answer(session, isOk, data) =>
      if session in k.callCoro {
        ReplyNoCalls(cfg.json, k.callCoro[session], isOk, data);
      }
      var (k', es) := OnResponse(cfg.json, k, session, isOk, data);
      BecomeServes(cfg, g1, n, k', es);
  }

  lemma QuietSame(cfg: Config, h: History)
    ensures Quiet(cfg, h, h)
  {
  }

  lemma NoneNoCalls()
    ensures NoCalls([])
  {
  }

  lemma TimeoutIdle(cfg: Config, g: System, n: nat, session: nat)
    requires Enabled(cfg, g, ClusterTimeout(n, session))
    ensures Idle(cfg, g, ClusterTimeout(n, session)) && Move(cfg, g, ClusterTimeout(n, session)).results == g.results
  {
    hide Become, Quiet, NoCalls, Respond;
    var k := g.clusters[n];
    NoneNoCalls();
    if session in k.callCoro {
      RespondNoCalls(k.callCoro[session].fd,
        Response(k.callCoro[session].from, k.callCoro[session].session, false, EMPTY));
    }
    var (k', es) := OnTimeout(k, session);
    BecomeServes(cfg, g, n, k', es);
  }

  lemma HttpIdle(cfg: Config, g: System, n: nat, x: nat, found: bool, connectOk: bool)
    requires Enabled(cfg, g, HttpDone(n, x, found, connectOk))
    ensures var e := HttpDone(n, x, found, connectOk);
            Idle(cfg, g, e) && Move(cfg, g, e).results == g.results
  {
    hide Become, Quiet;
    var (k', es) := HttpReply(g.clusters[n], x, found, connectOk);
    BecomeServes(cfg, g, n, k', es);
  }

  lemma ConnectedIdle(cfg: Config, g: System, n: nat, c: nat)
    requires Enabled(cfg, g, Connected(n, c))
    ensures Idle(cfg, g, Connected(n, c)) && Move(cfg, g, Connected(n, c)).results == g.results
  {
    hide Become;
    var id, m := Addr(n, c), g.history.dialed[Addr(n, c)];
    var (k, es) := OnConnect(g.clusters[n], c);
    BecomeServes(cfg, g.(conns := g.conns[id := g.conns[id].(fd := Some(g.nextFd[m]))],
                         nextFd := g.nextFd[m := g.nextFd[m] + 1],
                         history := g.history.(peers := g.history.peers[Addr(m, g.nextFd[m]) := id])), n, k, es);
  }

  lemma ClientIdle(cfg: Config, g: System, e: Event)
    requires Enabled(cfg, g, e) && (e.ConnectFailed? || e.Closed? || e.ClientRead?)
    ensures Idle(cfg, g, e) && Move(cfg, g, e).results == g.results
  {
    hide Become, Quiet, DecodeResponse;
    match e
    case ConnectFailed(n, c) => BecomeServes(cfg, g, n, g.clusters[n], OnConnectError(g.clusters[n], c));
    case Closed(n, c) =>
      BecomeServes(cfg, g.(conns := g.conns[Addr(n, c) := g.conns[Addr(n, c)].(down := [])]), n,
                   OnClose(g.clusters[n], c), []);
    case ClientRead(n, c) =>
      var conn := g.conns[Addr(n, c)];
      BecomeServes(cfg, g.(conns := g.conns[Addr(n, c) := conn.(down := conn.down[1..])]), n, g.clusters[n],
                   OnClientMsg(cfg.json, g.clusters[n], c, conn.down[0]));
  }

  lemma ServerMsgNoCalls(json: Json, lookup: Bytes -> nat, k: State, fd: nat, msg: Bytes)
    ensures NoCalls(OnServerMsg(json, lookup, k, fd, msg).1)
  {
    hide DecodeRequest;
  }

  lemma ServerIdle(cfg: Config, g: System, n: nat, c: nat)
    requires Enabled(cfg, g, ServerRead(n, c))
    ensures Idle(cfg, g, ServerRead(n, c)) && Move(cfg, g, ServerRead(n, c)).results == g.results
  {
    hide Become, Quiet, NoCalls, OnServerMsg;
    var conn, m := g.conns[Addr(n, c)], g.history.dialed[Addr(n, c)];
    ServerMsgNoCalls(cfg.json, name => cfg.lookup(m, name), g.clusters[m], conn.fd.value, conn.up[0]);
    var (k, es) := OnServerMsg(cfg.json, name => cfg.lookup(m, name), g.clusters[m], conn.fd.value, conn.up[0]);
    BecomeServes(cfg, g.(conns := g.conns[Addr(n, c) := conn.(up := conn.up[1..])]), m, k, es);
  }

  /** In state `g`, event `e` starts serving session `key` in session `mine` of the cluster service concerned. */
  ghost predicate ServesAt(cfg: Config, g: System, e: Event, mine: Key, key: Key) {
    && e.ClusterRun? && e.node in g.clusters && e.i < |g.clusters[e.node].nextCoro|
    && var task := g.clusters[e.node].nextCoro[e.i];
    && task.Serve? && mine == Mine(cfg, e.node, g.clusters[e.node].autoSession)
    && key == Asker(g.history, e.node, Back(task.fd, task.from, task.session))
  }

  /** Running a coroutine records at most that a received request is now served. */
  lemma RunServes(cfg: Config, g: System, e: Event, mine: Key)
    requires e.ClusterRun? && Enabled(cfg, g, e)
    ensures Quiet(cfg, g.history, Move(cfg, g, e).history) && Move(cfg, g, e).results == g.results
    ensures mine in Move(cfg, g, e).history.serves ==>
              var key := Move(cfg, g, e).history.serves[mine];
              (mine in g.history.serves && g.history.serves[mine] == key) || ServesAt(cfg, g, e, mine, key)
  {
    hide Become, Quiet;
    var n, k := e.node, g.clusters[e.node];
    var (k', es) := Resume(cfg.json, k, e.i, e.sendOk, e.started);
    BecomeQuiet(cfg, g, n, k', es);
    var task := k.nextCoro[e.i];
    if task.Serve? && cfg.json.valid(task.data) {
      BecomeHistory(cfg, g, n, k', es);
      NotedOne(cfg, g.history, n, k', es[0]);
    } else {
      BecomeServes(cfg, g, n, k', es);
    }
  }

  /** A handler gives answer `a` in state `g`: it has the request, and the request asks what the session asked for. */
  ghost predicate Gives(g: System, e: Event, a: Given) {
    && e.AppAnswer? && e.at in g.apps && e.duty in g.apps[e.at].duties && a == GivenBy(e.at, e.duty, e.isOk, e.data)
    && (a.to.session > 0 ==> a.to in g.history.calls && g.history.calls[a.to] == Local(e.at.service, e.duty.data))
  }

  lemma ClusterIdle(cfg: Config, g: System, e: Event)
    requires Enabled(cfg, g, e)
    requires e.ClusterTake? || e.ClusterTimeout? || e.HttpDone? || e.Connected? || e.ConnectFailed? || e.Closed?
        || e.ClientRead? || e.ServerRead?
    ensures Idle(cfg, g, e) && Move(cfg, g, e).results == g.results
  {
    hide Idle, Move, Enabled;
    match e
    case ClusterTake(n) => TakeIdle(cfg, g, n);
    case ClusterTimeout(n, session) => TimeoutIdle(cfg, g, n, session);
    case HttpDone(n, x, found, connectOk) => HttpIdle(cfg, g, n, x, found, connectOk);
    case Connected(n, c) => ConnectedIdle(cfg, g, n, c);
    case ConnectFailed(_, _) => ClientIdle(cfg, g, e);
    case Closed(_, _) => ClientIdle(cfg, g, e);
    case ClientRead(_, _) => ClientIdle(cfg, g, e);
    case ServerRead(n, c) => ServerIdle(cfg, g, n, c);
  }

  lemma OtherIdle(cfg: Config, g: System, e: Event)
    requires Enabled(cfg, g, e) && !e.ClusterRun? && !e.AppAnswer? && !e.CallRemote? && !e.CallLocal?
    ensures Idle(cfg, g, e)
  {
    if e.SendRemote? || e.SendLocal? || e.AppTake? || e.AppTimeout? || e.Lose? {
      hide Quiet;
      QuietSame(cfg, g.history);
    } else {
      ClusterIdle(cfg, g, e);
      hide Idle;
    }
  }

  /** A call of a service enters the history only by the event that issues it. */
  lemma MoveCalls(cfg: Config, g: System, e: Event, key: Key)
    requires Enabled(cfg, g, e) && key in Move(cfg, g, e).history.calls
    requires key.at.service != cfg.cluster(key.at.node)
    ensures var call := Move(cfg, g, e).history.calls[key];
            (key in g.history.calls && g.history.calls[key] == call) || Issues(g, e, key, call)
  {
    hide Become;
    if e.ClusterRun? {
      RunServes(cfg, g, e, key);
      hide Move, Issues;
    } else if !e.AppAnswer? && !e.CallRemote? && !e.CallLocal? {
      OtherIdle(cfg, g, e);
      hide Move, Issues;
    }
  }

  /** So do answers and what they answer, and the sessions a cluster service serves. */
  lemma MoveGiven(cfg: Config, g: System, e: Event, a: Given)
    requires GoodApps(g.history, g.apps) && Enabled(cfg, g, e) && a in Move(cfg, g, e).history.given
    ensures a in g.history.given || Gives(g, e, a)
  {
    hide Become;
    if e.ClusterRun? {
      RunServes(cfg, g, e, a.to);
      hide Move, Gives;
    } else if e.AppAnswer? {
      assert GoodApp(g.history, e.at, g.apps[e.at]);
    } else if !e.CallRemote? && !e.CallLocal? {
      OtherIdle(cfg, g, e);
      hide Move, Gives;
    }
  }

  lemma MoveServes(cfg: Config, g: System, e: Event, mine: Key)
    requires Enabled(cfg, g, e) && mine in Move(cfg, g, e).history.serves
    ensures var key := Move(cfg, g, e).history.serves[mine];
            (mine in g.history.serves && g.history.serves[mine] == key) || ServesAt(cfg, g, e, mine, key)
  {
    hide Become;
    if e.ClusterRun? {
      RunServes(cfg, g, e, mine);
      hide Move, ServesAt;
    } else if !e.AppAnswer? && !e.CallRemote? && !e.CallLocal? {
      OtherIdle(cfg, g, e);
      hide Move, ServesAt;
    }
  }

  /** Recording what fails is recording nothing else. */
  lemma NotingOnly(cfg: Config, g: System, e: Event)
    requires Enabled(cfg, g, e)
    ensures var g1 := Noting(cfg, g, e);
            && Enabled(cfg, g1, e) && Apply(cfg, g, e) == Move(cfg, g1, e)
            && g1 == g.(history := g.history.(failed := g.history.failed + FailedBy(cfg, g, e)))
  {
    hide FailedBy, Move;
  }

  lemma StepCalls(cfg: Config, g: System, e: Event, key: Key)
    requires Enabled(cfg, g, e) && key in Apply(cfg, g, e).history.calls
    requires key.at.service != cfg.cluster(key.at.node)
    ensures var call := Apply(cfg, g, e).history.calls[key];
            (key in g.history.calls && g.history.calls[key] == call) || Issues(g, e, key, call)
  {
    hide Apply, Noting, Enabled, Move, FailedBy;
    NotingOnly(cfg, g, e);
    MoveCalls(cfg, Noting(cfg, g, e), e, key);
  }

  lemma StepGiven(cfg: Config, g: System, e: Event, a: Given)
    requires Inv(cfg, g) && Enabled(cfg, g, e) && a in Apply(cfg, g, e).history.given
    ensures a in g.history.given || Gives(g, e, a)
  {
    NotingKeeps(cfg, g, e);
    hide Apply, Noting, Enabled, Move, FailedBy;
    NotingOnly(cfg, g, e);
    MoveGiven(cfg, Noting(cfg, g, e), e, a);
  }

  lemma StepServes(cfg: Config, g: System, e: Event, mine: Key)
    requires Enabled(cfg, g, e) && mine in Apply(cfg, g, e).history.serves
    ensures var key := Apply(cfg, g, e).history.serves[mine];
            (mine in g.history.serves && g.history.serves[mine] == key) || ServesAt(cfg, g, e, mine, key)
  {
    hide Apply, Noting, Enabled, Move, FailedBy;
    NotingOnly(cfg, g, e);
    MoveServes(cfg, Noting(cfg, g, e), e, mine);
  }

  /** A failure enters the history only by the event in which that very call fails. */
  lemma StepFailed(cfg: Config, g: System, e: Event, f: Failure)
    requires Enabled(cfg, g, e) && f in Apply(cfg, g, e).history.failed
    ensures f in g.history.failed || FailsAt(cfg, g, e, f)
  {
    hide Apply, Noting, Enabled, Move, FailedBy;
    NotingOnly(cfg, g, e);
    MoveFailed(cfg, Noting(cfg, g, e), e);
  }

  lemma MoveFailed(cfg: Config, g: System, e: Event)
    requires Enabled(cfg, g, e)
    ensures Move(cfg, g, e).history.failed == g.history.failed
  {
    hide Become, Push;
    if e.ClusterRun? {
      RunServes(cfg, g, e, Key(Addr(0, 0), 0));
      hide Move;
    } else if e.AppAnswer? || e.CallRemote? || e.CallLocal? {
      AppFailed(cfg, g, e);
    } else {
      OtherIdle(cfg, g, e);
      hide Move;
    }
  }

  lemma AppFailed(cfg: Config, g: System, e: Event)
    requires Enabled(cfg, g, e) && (e.AppAnswer? || e.CallRemote? || e.CallLocal?)
    ensures Move(cfg, g, e).history.failed == g.history.failed
  {
  }

  lemma {:induction false} CallsIssued(cfg: Config, states: seq<System>, events: seq<Event>, i: nat, key: Key)
      returns (j: nat)
    requires IsRun(cfg, states, events) && i < |states|
    requires key in states[i].history.calls && key.at.service != cfg.cluster(key.at.node)
    ensures j < i && Issues(states[j], events[j], key, states[i].history.calls[key])
    decreases i
  {
    hide Apply, Enabled, Issues;
    j := 0;
    if i == 0 {
      assert false;
    } else {
      StepCalls(cfg, states[i - 1], events[i - 1], key);
      if key in states[i - 1].history.calls && states[i - 1].history.calls[key] == states[i].history.calls[key] {
        j := CallsIssued(cfg, states, events, i - 1, key);
      } else {
        j := i - 1;
      }
    }
  }

  /** An answer on record was given by a handler in an earlier event of the run. */
  lemma {:induction false} AnswersGiven(cfg: Config, states: seq<System>, events: seq<Event>, i: nat, a: Given)
      returns (j: nat)
    requires IsRun(cfg, states, events) && Honest(cfg, states, events) && i < |states| && a in states[i].history.given
    ensures j < i && Gives(states[j], events[j], a)
    decreases i
  {
    hide Apply, Enabled, Gives, HonestStep;
    j := 0;
    if i == 0 {
      assert false;
    } else {
      RunKeeps(cfg, states, events, i - 1);
      hide Inv;
      StepGiven(cfg, states[i - 1], events[i - 1], a);
      if a in states[i - 1].history.given {
        j := AnswersGiven(cfg, states, events, i - 1, a);
      } else {
        j := i - 1;
      }
    }
  }

  /** A session served was taken on in an earlier event, for a request that came from that very session. */
  lemma {:induction false} SessionsServed(cfg: Config, states: seq<System>, events: seq<Event>, i: nat, mine: Key)
      returns (j: nat)
    requires IsRun(cfg, states, events) && i < |states| && mine in states[i].history.serves
    ensures j < i && ServesAt(cfg, states[j], events[j], mine, states[i].history.serves[mine])
    decreases i
  {
    hide Apply, Enabled, ServesAt;
    j := 0;
    if i == 0 {
      assert false;
    } else {
      StepServes(cfg, states[i - 1], events[i - 1], mine);
      if mine in states[i - 1].history.serves && states[i - 1].history.serves[mine] == states[i].history.serves[mine] {
        j := SessionsServed(cfg, states, events, i - 1, mine);
      } else {
        j := i - 1;
      }
    }
  }

  /** In state `g`, event `e` resumes the coroutine of that very session, with what the result says. */
  ghost predicate ResumedAt(g: System, e: Event, r: Result) {
    match r.outcome
    case TimedOut => e == AppTimeout(r.key.at, r.key.session)
    case Answered(isOk, data) =>
      && e == AppTake(r.key.at) && r.key.at in g.mail && |g.mail[r.key.at]| > 0
      && g.mail[r.key.at][0] == Answer(r.key.session, isOk, data)
  }

  lemma TakeResults(g: System, at: Addr, r: Result)
    requires at in g.apps && at in g.mail && |g.mail[at]| > 0 && r in TakeApp(g, at).results
    ensures r in g.results || ResumedAt(g, AppTake(at), r)
  {
  }

  lemma MoveResults(cfg: Config, g: System, e: Event, r: Result)
    requires Enabled(cfg, g, e) && r in Move(cfg, g, e).results
    ensures r in g.results || ResumedAt(g, e, r)
  {
    hide Become, TakeApp, Idle, Quiet;
    match e
    case AppTake(at) => TakeResults(g, at, r);
    case AppTimeout(_, _) =>
    case CallRemote(_, _, _, _) =>
    case SendRemote(_, _, _, _) =>
    case CallLocal(_, _, _) =>
    case SendLocal(_, _, _) =>
    case AppAnswer(_, _, _, _) =>
    case Lose(_) =>
    case ClusterRun(_, _, _, _) =>
      RunServes(cfg, g, e, Key(Addr(0, 0), 0));
      hide Move;
    case _ =>
      ClusterIdle(cfg, g, e);
      hide Move;
  }

  lemma StepResults(cfg: Config, g: System, e: Event, r: Result)
    requires Enabled(cfg, g, e) && r in Apply(cfg, g, e).results
    ensures r in g.results || ResumedAt(g, e, r)
  {
    hide Enabled, Move, FailedBy;
    NotingOnly(cfg, g, e);
    MoveResults(cfg, Noting(cfg, g, e), e, r);
  }

  /** And conversely: whoever waits is resumed by the timeout of its session, and by any answer that arrives for it. */
  lemma WaiterResumed(cfg: Config, g: System, e: Event, r: Result)
    requires Enabled(cfg, g, e) && ResumedAt(g, e, r)
    requires r.key.at in g.apps && r.key.session in g.apps[r.key.at].waiting
    ensures r in Apply(cfg, g, e).results && r.key.at in Apply(cfg, g, e).apps
    ensures r.key.session !in Apply(cfg, g, e).apps[r.key.at].waiting
  {
    hide Enabled, Move, FailedBy, Apply, Noting;
    NotingOnly(cfg, g, e);
    var g1 := Noting(cfg, g, e);
    if r.outcome.TimedOut? {
      TimeoutResumes(cfg, g1, r.key.at, r.key.session);
    } else {
      AnswerResumes(cfg, g1, r.key.at);
    }
    assert g1.results + [r] == g1.results + [Result(r.key, r.outcome)];
  }

  lemma TimeoutResumes(cfg: Config, g: System, at: Addr, session: nat)
    requires Enabled(cfg, g, AppTimeout(at, session))
    ensures var g' := Move(cfg, g, AppTimeout(at, session));
            && at in g'.apps && session !in g'.apps[at].waiting
            && g'.results == g.results + [Result(Key(at, session), TimedOut)]
  {
  }

  lemma AnswerResumes(cfg: Config, g: System, at: Addr)
    requires Enabled(cfg, g, AppTake(at)) && at in g.apps && at in g.mail && |g.mail[at]| > 0
    requires g.mail[at][0].Answer? && g.mail[at][0].session in g.apps[at].waiting
    ensures var g', m := Move(cfg, g, AppTake(at)), g.mail[at][0];
            && at in g'.apps && m.session !in g'.apps[at].waiting
            && g'.results == g.results + [Result(Key(at, m.session), Answered(m.isOk, m.data))]
  {
  }

  /** Every resumption is an earlier event of the run: the timeout of that session, or the delivery of that answer. */
  lemma {:induction false} ResultsHappened(cfg: Config, states: seq<System>, events: seq<Event>, i: nat, r: Result)
      returns (j: nat)
    requires IsRun(cfg, states, events) && i < |states| && r in states[i].results
    ensures j < i && ResumedAt(states[j], events[j], r)
    decreases i
  {
    hide Apply, Enabled, ResumedAt;
    j := 0;
    if i == 0 {
      assert false;
    } else {
      StepResults(cfg, states[i - 1], events[i - 1], r);
      if r in states[i - 1].results {
        j := ResultsHappened(cfg, states, events, i - 1, r);
      } else {
        j := i - 1;
      }
    }
  }

  /** A failure on record is that of the very call that failed in an earlier event of the run. */
  lemma {:induction false} FailuresHappened(cfg: Config, states: seq<System>, events: seq<Event>, i: nat, f: Failure)
      returns (j: nat)
    requires IsRun(cfg, states, events) && i < |states| && f in states[i].history.failed
    ensures j < i && FailsAt(cfg, states[j], events[j], f)
    decreases i
  {
    hide Apply, Enabled, FailsAt;
    j := 0;
    if i == 0 {
      assert false;
    } else {
      StepFailed(cfg, states[i - 1], events[i - 1], f);
      if f in states[i - 1].history.failed {
        j := FailuresHappened(cfg, states, events, i - 1, f);
      } else {
        j := i - 1;
      }
    }
  }

  // ---------------------------------------------------------------- end to end

  lemma LastResult(cfg: Config, g: System, i: nat)
    requires Inv(cfg, g) && i < |g.results|
    ensures var r := g.results[i];
            && r.key in g.history.calls && r.key.at.service != cfg.cluster(r.key.at.node) && r.key.session > 0
            && (r.outcome.Answered? ==> AnswersCall(cfg, g.history, r.key, r.outcome.isOk, r.outcome.data))
    ensures forall k :: 0 <= k < |g.results| && k != i ==> g.results[k].key != g.results[i].key
  {
    hide GoodClusters, GoodApps, GoodMail, GoodConns, FreshIds, AnswersCall;
    assert GoodResult(cfg, g.history, g.apps, g.results[i]);
  }

  /**
   End-to-end correlation. In every run in which requests to relay name their sender, whatever interleaves, fails or
   is lost, whoever was resumed by state `p` in session `key` had issued a call in that session, and was resumed by its
   timeout or by an answer to that very session: one that a handler gave to the session itself, or to a session that
   serves it on the node called, or a report that this very call failed. Answers given, sessions served and failures
   all go back to earlier events about those very sessions. No session is resumed twice.
   */
  lemma EndToEndCorrelation(cfg: Config, states: seq<System>, events: seq<Event>, p: nat, i: nat)
    requires IsRun(cfg, states, events) && Honest(cfg, states, events) && p < |states| && i < |states[p].results|
    ensures var r, h := states[p].results[i], states[p].history;
            && r.key in h.calls && (exists j :: 0 <= j < p && Issues(states[j], events[j], r.key, h.calls[r.key]))
            && (r.outcome.Answered? ==> exists d: nat :: AnswersIn(cfg, h, d, r.key, r.outcome.isOk, r.outcome.data))
    ensures exists j :: 0 <= j < p && ResumedAt(states[j], events[j], states[p].results[i])
    ensures forall k :: 0 <= k < |states[p].results| && k != i ==> states[p].results[k].key != states[p].results[i].key
    ensures forall a :: a in states[p].history.given ==> exists j :: 0 <= j < p && Gives(states[j], events[j], a)
    ensures forall mine :: mine in states[p].history.serves ==>
              exists j :: 0 <= j < p && ServesAt(cfg, states[j], events[j], mine, states[p].history.serves[mine])
    ensures forall f :: f in states[p].history.failed ==>
              exists j :: 0 <= j < p && FailsAt(cfg, states[j], events[j], f)
  {
    var last, r := states[p], states[p].results[i];
    RunKeeps(cfg, states, events, p);
    LastResult(cfg, last, i);
    hide Inv, IsRun, Honest, Issues, AnswersIn, Gives, ServesAt, FailsAt, ResumedAt;
    var j := CallsIssued(cfg, states, events, p, r.key);
    var back := ResultsHappened(cfg, states, events, p, r);
    forall a | a in last.history.given ensures exists j :: 0 <= j < p && Gives(states[j], events[j], a) {
      var j := AnswersGiven(cfg, states, events, p, a);
    }
    forall mine | mine in last.history.serves
      ensures exists j :: 0 <= j < p && ServesAt(cfg, states[j], events[j], mine, last.history.serves[mine])
    {
      var j := SessionsServed(cfg, states, events, p, mine);
    }
    forall f | f in last.history.failed ensures exists j :: 0 <= j < p && FailsAt(cfg, states[j], events[j], f) {
      var j := FailuresHappened(cfg, states, events, p, f);
    }
  }

  /**
   A handler of service `service` of node `m` answered `q` to session `t` of the cluster service, with what was asked.
   */
  ghost predicate AnsweredTo(cfg: Config, e: Event, m: nat, service: nat, t: nat, asked: Bytes, isOk: bool, q: Bytes) {
    e == AppAnswer(Addr(m, service), Duty(cfg.cluster(m), t, cfg.json.again(asked)), isOk, q)
  }

  /** The text a caller gets when its call of `name` fails. */
  function Report(cfg: Config, why: Why, name: Bytes): Bytes {
    match why
    case NotConnected => EMPTY
    case NoAnswer => cfg.json.again(EMPTY)
    case NotFound => cfg.json.again(NotFoundText(name))
  }

  /**
   The same in plain events for one call to a service of another node. Its answer reports that this very call failed
   earlier in the run, or was given earlier in the run by that service, to a request with exactly the data of the call,
   in a session taken on for exactly the session that issued the call.
   */
  lemma RemoteAnswers(cfg: Config, states: seq<System>, events: seq<Event>, p: nat, i: nat)
    requires IsRun(cfg, states, events) && Honest(cfg, states, events) && p < |states| && i < |states[p].results|
    requires states[p].results[i].outcome.Answered?
    requires var key := states[p].results[i].key;
             && key in states[p].history.calls && states[p].history.calls[key].Remote?
             && cfg.lookup(states[p].history.calls[key].toNode, states[p].history.calls[key].name)
                != cfg.cluster(states[p].history.calls[key].toNode)
    ensures var r := states[p].results[i];
            var call, isOk, data := states[p].history.calls[r.key], r.outcome.isOk, r.outcome.data;
            var m, service := call.toNode, cfg.lookup(call.toNode, call.name);
            || (!isOk && exists why ::
                  && data == Report(cfg, why, call.name)
                  && exists j :: 0 <= j < p && FailsAt(cfg, states[j], events[j], Failure(r.key, m, why)))
            || exists j, k, t: nat, q ::
                 && 0 <= j < p && ServesAt(cfg, states[j], events[j], Mine(cfg, m, t), r.key)
                 && 0 <= k < p && AnsweredTo(cfg, events[k], m, service, t, call.data, isOk, q)
                 && data == cfg.json.again(Packed(cfg.json, isOk, q))
  {
    var h, r := states[p].history, states[p].results[i];
    var call, isOk, data := h.calls[r.key], r.outcome.isOk, r.outcome.data;
    var m, service := call.toNode, cfg.lookup(call.toNode, call.name);
    RunKeeps(cfg, states, events, p);
    LastResult(cfg, states[p], i);
    hide Inv, IsRun, Honest, HonestStep, Packed, Report;
    hide AnswersIn, ServesAt, AnsweredTo, FailsAt, Via, Serving;
    var d: nat :| AnswersIn(cfg, h, d, r.key, isOk, data);
    var failure, t, q := AnswerSource(cfg, h, d, r.key, isOk, data);
    if failure.Some? {
      var j := FailuresHappened(cfg, states, events, p, Failure(r.key, m, failure.value));
    } else {
      ViaParts(cfg, h, d - 1, r.key, m, t, isOk, q, Packed(cfg.json, isOk, q));
      var j := SessionsServed(cfg, states, events, p, Mine(cfg, m, t));
      var k := HandlerAnswered(cfg, states, events, p, d - 1, m, t, service, call.data, isOk, q);
    }
  }

  /** An answer to a remote call reports its failure, or is packed from an answer to a session that serves it. */
  lemma AnswerSource(cfg: Config, h: History, d: nat, key: Key, isOk: bool, data: Bytes)
      returns (failure: Option<Why>, t: nat, q: Bytes)
    requires AnswersIn(cfg, h, d, key, isOk, data) && h.calls[key].Remote?
    ensures var call := h.calls[key];
            match failure
            case Some(why) => !isOk && data == Report(cfg, why, call.name) && Failure(key, call.toNode, why) in h.failed
            case None =>
              && d > 0 && Via(cfg, h, d - 1, key, call.toNode, t, isOk, q, Packed(cfg.json, isOk, q))
              && data == cfg.json.again(Packed(cfg.json, isOk, q))
  {
    hide Packed, Serving;
    var call := h.calls[key];
    failure, t, q := Some(NotConnected), 0, [];
    if !(!isOk && data == EMPTY && Failure(key, call.toNode, NotConnected) in h.failed) {
      var p :| data == cfg.json.again(p)
        && (Reported(cfg, h, key, call.toNode, call.name, isOk, p)
          || (d > 0 && ViaAny(cfg, h, d - 1, key, call.toNode, isOk, p)));
      if Reported(cfg, h, key, call.toNode, call.name, isOk, p) {
        failure := Some(if p == EMPTY && Failure(key, call.toNode, NoAnswer) in h.failed then NoAnswer else NotFound);
      } else {
        failure := None;
        t, q :| Via(cfg, h, d - 1, key, call.toNode, t, isOk, q, p);
      }
    }
  }

  lemma ViaParts(cfg: Config, h: History, d: nat, key: Key, m: nat, t: nat, isOk: bool, q: Bytes, p: Bytes)
    requires Via(cfg, h, d, key, m, t, isOk, q, p) && h.calls.Keys >= h.serves.Keys
    ensures var mine := Mine(cfg, m, t);
            && mine in h.calls && mine in h.serves && h.serves[mine] == key && AnswersIn(cfg, h, d, mine, isOk, q)
            && key in h.calls
            && var asked := Asked(cfg, key.at.node, h.calls[key]);
            asked.Remote? && h.calls[mine] == Local(cfg.lookup(m, asked.name), cfg.json.again(asked.data))
  {
    hide AnswersIn;
  }

  lemma HandlerAnswered(cfg: Config, states: seq<System>, events: seq<Event>, p: nat, d: nat, m: nat, t: nat,
      service: nat,
      asked: Bytes, isOk: bool, q: Bytes) returns (k: nat)
    requires IsRun(cfg, states, events) && Honest(cfg, states, events) && p < |states| && service != cfg.cluster(m)
    requires AnswersIn(cfg, states[p].history, d, Mine(cfg, m, t), isOk, q) && t > 0
    requires states[p].history.calls[Mine(cfg, m, t)] == Local(service, cfg.json.again(asked))
    ensures k < p && AnsweredTo(cfg, events[k], m, service, t, asked, isOk, q)
  {
    hide IsRun, Honest, HonestStep;
    var a := Given(Addr(m, service), Mine(cfg, m, t), isOk, q);
    k := AnswersGiven(cfg, states, events, p, a);
    RunGrows(cfg, states, events, k, p);
  }
}
