/**
 Recycled messages (src/service/msg, src/service/luaService.cpp, src/service/service.cpp). Message objects travel from
 a pool to a sender, to a mailbox, to the poll that copies them out, and back to the pool; they are overwritten in
 place on the way. Each method of class Mail is one step between lock operations, so every interleaving of threads is
 a sequence of calls; Valid ties the objects to plain queues of values.
 */
module Mailbox {
  import opened Basics

  const BUFFER := 4096

  /** What a message says. */
  datatype Record = Record(
    source: int, session: int, msgType: int, status: int, fd: int, isOk: bool, data: Bytes, error: Bytes)

  const ZERO := Record(0, 0, 0, 0, 0, false, [], [])

  /** The Lua table that Service::poll makes of a message. */
  function Seen(r: Record): Record {
    r.(error := CutNul(r.error))
  }

  function SeenAll(rs: seq<Record>): (s: seq<Record>)
    ensures |s| == |rs| && forall i :: 0 <= i < |rs| ==> s[i] == Seen(rs[i])
  {
    seq(|rs|, i requires 0 <= i < |rs| => Seen(rs[i]))
  }

  /**
   Who fills a message with what: core.send of a service; a socket or websocket event, with its peer's number on the
   server side; received bytes; the reply to an HTTP GET or POST; a timer or a shutdown request. Numbers are the
   64-bit ones of the sender.
   */
  datatype Post =
    | Lua(source: int, msgType: int, session: int, isOk: bool, data: Bytes)
    | SocketEvent(session: int, msgType: int, status: int, peer: Option<int>, error: Bytes)
    | SocketData(session: int, msgType: int, status: int, peer: Option<int>, data: Bytes)
    | GetReply(session: int, status: int, data: Bytes, error: Bytes)
    | PostReply(session: int, status: int, data: Bytes, error: Bytes)
    | Signal(session: int, msgType: int)

  const HTTP_CLIENT := 5

  /** What the sender wants its recipient to read; without a peer number the descriptor says nothing. */
  function Intended(p: Post): Record {
    match p
    case Lua(source, msgType, session, isOk, data) => Record(source, session, msgType, 0, 0, isOk, data, [])
    case SocketEvent(session, msgType, status, peer, error) =>
      Record(0, session, msgType, status, if peer.Some? then peer.value else 0, false, [], error)
    case SocketData(session, msgType, status, peer, data) =>
      Record(0, session, msgType, status, if peer.Some? then peer.value else 0, false, data, [])
    case GetReply(session, status, data, error) => Record(0, session, HTTP_CLIENT, status, 0, false, data, error)
    case PostReply(session, status, data, error) => Record(0, session, HTTP_CLIENT, status, 0, false, data, error)
    case Signal(session, msgType) => Record(0, session, msgType, 0, 0, false, [], [])
  }

  predicate HasPeer(p: Post) {
    (p.SocketEvent? || p.SocketData?) && p.peer.Some?
  }

  /**
   What a message left with descriptor `fd` says once it is filled: numbers are cut to the 32 bits of their fields,
   the reply to a POST keeps no body, and without a peer number the old descriptor stays.
   */
  function Written(p: Post, fd: nat): Record {
    var r := Intended(p);
    Record(r.source % U32, r.session % U32, r.msgType % U32, r.status, if HasPeer(p) then r.fd % U32 else fd, r.isOk,
           if p.PostReply? then [] else r.data, r.error)
  }

  class ServiceMsg {
    var source: nat
    var session: nat
    var msgType: nat
    var status: int
    var fd: nat
    var dataLen: nat
    var isOk: bool
    var data: Bytes
    var error: Bytes

    ghost predicate Valid()
      reads this
    {
      BUFFER <= |data| && dataLen <= |data|
    }

    ghost function Content(): Record
      requires Valid()
      reads this
    {
      Record(source, session, msgType, status, fd, isOk, data[..dataLen], error)
    }

    constructor ()
      ensures Valid() && Content() == ZERO
    {
      source, session, msgType, status, fd, dataLen, isOk, error := 0, 0, 0, 0, 0, 0, false, [];
      data := seq(BUFFER, _ => 0);
    }

    /** All fields but fd. */
    method Reset()
      requires Valid()
      modifies this
      ensures Valid() && Content() == ZERO.(fd := old(fd))
      ensures data == seq(|old(data)|, _ => 0)
    {
      source, session, msgType, status, dataLen, isOk := 0, 0, 0, 0, 0, false;
      data := seq(|data|, _ => 0);
      error := [];
    }

    /** vector::resize to a larger size. */
    method Resize(size: nat)
      requires |data| <= size
      modifies this`data
      ensures |data| == size && old(data) <= data
    {
      data := data + seq(size - |data|, _ => 0);
    }

    /** memcpy to the start of the buffer. */
    method Copy(bytes: Bytes)
      requires |bytes| <= |data|
      modifies this`data
      ensures |data| == |old(data)| && data[..|bytes|] == bytes && data[|bytes|..] == old(data)[|bytes|..]
    {
      data := bytes + data[|bytes|..];
    }

    /**
     Senders differ in when they enlarge the buffer, and the reply to a POST never sets dataLen. What the recipient
     reads is what was intended exactly when the sender's message can be carried and no old descriptor shows.
     */
    method Write(p: Post)
      requires Valid() && Content() == ZERO.(fd := fd)
      modifies this
      ensures Valid()
      ensures Content() == Written(p, old(fd))
      ensures Seen(Content()) == Intended(p) <==> Carried(p) && (HasPeer(p) || old(fd) == 0)
    {
      hide Carried, Seen;
      IntendedArrives(p, fd);
      match p
      case Lua(source, msgType, session, isOk, bytes) =>
        this.msgType := msgType % U32;
        dataLen := |bytes|;
        this.isOk := isOk;
        if |bytes| > 0 {
          if |data| - 1 < |bytes| {
            Resize(|bytes| + 1);
          }
          Copy(bytes);
        }
        this.source := source % U32;
        this.session := session % U32;
      case SocketEvent(session, msgType, status, peer, error) =>
        this.msgType := msgType % U32;
        this.status := status;
        this.session := session % U32;
        if peer.Some? {
          fd := peer.value % U32;
        }
        this.error := error;
      case SocketData(session, msgType, status, peer, bytes) =>
        this.msgType := msgType % U32;
        this.status := status;
        this.session := session % U32;
        if peer.Some? {
          fd := peer.value % U32;
        }
        dataLen := |bytes|;
        if |data| < |bytes| {
          Resize(|bytes| + 1);
        }
        Copy(bytes);
      case GetReply(session, status, bytes, error) =>
        msgType := HTTP_CLIENT;
        this.session := session % U32;
        this.status := status;
        dataLen := |bytes|;
        if |data| < |bytes| + 1 {
          Resize(|bytes| + 1);
        }
        Copy(bytes);
        this.error := error;
      case PostReply(session, status, bytes, error) =>
        msgType := HTTP_CLIENT;
        this.session := session % U32;
        this.status := status;
        if |bytes| > 0 {
          if |data| < |bytes| + 1 {
            Resize(|bytes| + 1);
          }
          Copy(bytes);
        }
        this.error := error;
      case Signal(session, msgType) =>
        this.session := session % U32;
        this.msgType := msgType % U32;
    }
  }

  // ---------------------------------------------------------------- what ties the objects to values

  /** Where an object is: at a position of the pool or of a mailbox, counted from their creation, or with a sender. */
  datatype Place = InPool(i: nat) | InBox(id: nat, i: nat) | InHand

  type Boxes = map<nat, seq<ServiceMsg>>

  type Queues = map<nat, seq<Record>>

  /**
   The proof's books: the mailboxes by value; all that each service ever accepted and what it was handed of it; where
   each object is; how many the pool gave out; and the objects in mailboxes.
   */
  datatype Ledger = Ledger(
    queue: Queues, accepted: Queues, delivered: Queues,
    place: map<ServiceMsg, Place>, taken: nat, queued: set<ServiceMsg>)

  ghost predicate Objects(ms: set<ServiceMsg>)
    reads ms
  {
    forall m :: m in ms ==> m.Valid()
  }

  /** Every pooled or queued object is where the books say, hence in one place only. */
  ghost predicate Placed(l: Ledger, pool: seq<ServiceMsg>, boxes: Boxes) {
    && boxes.Keys <= l.delivered.Keys
    && (forall i :: 0 <= i < |pool| ==> pool[i] in l.place && l.place[pool[i]] == InPool(l.taken + i))
    && (forall id, i :: id in boxes && 0 <= i < |boxes[id]| ==>
          boxes[id][i] in l.place && l.place[boxes[id][i]] == InBox(id, |l.delivered[id]| + i))
    && (forall m :: m in l.queued ==> m in l.place && l.place[m].InBox?)
  }

  /** A pooled object is like a new one, except for fd. */
  ghost predicate Idle(pool: seq<ServiceMsg>)
    reads pool
  {
    forall i :: 0 <= i < |pool| ==> pool[i].Valid() && pool[i].Content() == ZERO.(fd := pool[i].fd)
  }

  /** Each mailbox, object by object, says what the queue of values says. */
  ghost predicate Holds(queued: set<ServiceMsg>, boxes: Boxes, queue: Queues)
    reads queued
  {
    && boxes.Keys == queue.Keys
    && (forall id :: id in boxes ==> |boxes[id]| == |queue[id]|)
    && (forall id, i :: id in boxes && 0 <= i < |boxes[id]| ==>
          boxes[id][i] in queued && boxes[id][i].Valid() && boxes[id][i].Content() == queue[id][i])
  }

  /** What was handed over is the start of what was accepted; the rest is queued until the service goes away. */
  ghost predicate History(queue: Queues, accepted: Queues, delivered: Queues) {
    && accepted.Keys == delivered.Keys && queue.Keys <= accepted.Keys
    && (forall id :: id in accepted ==> |delivered[id]| <= |accepted[id]|)
    && (forall id :: id in queue ==> queue[id] == accepted[id][|delivered[id]|..])
    && (forall id :: id in delivered ==> delivered[id] == SeenAll(accepted[id][..|delivered[id]|]))
  }

  function Received(l: Ledger, id: nat, r: Record): Ledger
    requires id in l.queue && id in l.accepted
  {
    l.(queue := l.queue[id := l.queue[id] + [r]], accepted := l.accepted[id := l.accepted[id] + [r]])
  }

  function HandedOver(l: Ledger, id: nat): Ledger
    requires id in l.queue && l.queue[id] != [] && id in l.delivered
  {
    l.(queue := l.queue[id := l.queue[id][1..]],
       delivered := l.delivered[id := l.delivered[id] + [Seen(l.queue[id][0])]])
  }

  function Opened(l: Ledger, id: nat): Ledger {
    l.(queue := l.queue[id := []], accepted := l.accepted[id := []], delivered := l.delivered[id := []])
  }

  function Stopped(l: Ledger, id: nat): Ledger {
    l.(queue := l.queue - {id})
  }

  function Moved(l: Ledger, m: ServiceMsg, to: Place): Ledger {
    l.(place := l.place[m := to], queued := if to.InBox? then l.queued + {m} else l.queued - {m})
  }

  lemma ValidAt(ms: set<ServiceMsg>, m: ServiceMsg)
    requires Objects(ms) && m in ms
    ensures m.Valid()
  {
  }

  lemma ObjectsJoin(ms: set<ServiceMsg>, m: ServiceMsg)
    requires Objects(ms) && m.Valid()
    ensures Objects(ms + {m})
  {
  }

  lemma ObjectsLess(ms: set<ServiceMsg>, less: set<ServiceMsg>)
    requires Objects(ms) && less <= ms
    ensures Objects(less)
  {
  }

  lemma IdleFront(pool: seq<ServiceMsg>)
    requires Idle(pool) && pool != []
    ensures pool[0].Valid() && pool[0].Content() == ZERO.(fd := pool[0].fd) && Idle(pool[1..])
  {
  }

  lemma PlacedTake(l: Ledger, pool: seq<ServiceMsg>, boxes: Boxes)
    requires Placed(l, pool, boxes) && pool != []
    ensures Placed(Moved(l, pool[0], InHand).(taken := l.taken + 1), pool[1..], boxes)
    ensures pool[0] in l.place && pool[0] !in l.queued
  {
  }

  lemma PlacedNew(l: Ledger, pool: seq<ServiceMsg>, boxes: Boxes, m: ServiceMsg)
    requires Placed(l, pool, boxes) && m !in l.place
    ensures Placed(Moved(l, m, InHand), pool, boxes) && m !in l.queued
  {
  }

  lemma PlacedMore(l: Ledger, pool: seq<ServiceMsg>, boxes: Boxes, m: ServiceMsg, id: nat)
    requires Placed(l, pool, boxes) && m in l.place && l.place[m] == InHand && id in boxes
    ensures Placed(Moved(l, m, InBox(id, |l.delivered[id]| + |boxes[id]|)), pool, boxes[id := boxes[id] + [m]])
  {
  }

  lemma PlacedDrop(l: Ledger, pool: seq<ServiceMsg>, boxes: Boxes, m: ServiceMsg)
    requires Placed(l, pool, boxes) && m in l.place && l.place[m] == InHand
    ensures Placed(l.(place := l.place - {m}), pool, boxes)
  {
  }

  lemma PlacedPush(l: Ledger, pool: seq<ServiceMsg>, boxes: Boxes, m: ServiceMsg)
    requires Placed(l, pool, boxes) && m in l.place && l.place[m] == InHand
    ensures Placed(Moved(l, m, InPool(l.taken + |pool|)), pool + [m], boxes)
    ensures m !in pool && m !in l.queued
  {
  }

  /** The front of a mailbox is in no other mailbox. */
  lemma PlacedFront(l: Ledger, pool: seq<ServiceMsg>, boxes: Boxes, id: nat, r: Record)
    requires Placed(l, pool, boxes) && id in boxes && boxes[id] != []
    ensures var m, boxes' := boxes[id][0], boxes[id := boxes[id][1..]];
            && m in l.place && (forall k, i :: k in boxes' && 0 <= i < |boxes'[k]| ==> boxes'[k][i] != m)
            && Placed(Moved(l.(delivered := l.delivered[id := l.delivered[id] + [r]]), m, InHand), pool, boxes')
  {
    var m := boxes[id][0];
    var boxes' := boxes[id := boxes[id][1..]];
    forall k, i | k in boxes' && 0 <= i < |boxes'[k]|
      ensures boxes'[k][i] in l.place && boxes'[k][i] != m
      ensures l.place[boxes'[k][i]] == InBox(k, (if k == id then |l.delivered[id]| + 1 else |l.delivered[k]|) + i)
    {
      assert boxes'[k][i] == boxes[k][if k == id then i + 1 else i];
      assert l.place[m] == InBox(id, |l.delivered[id]| + 0);
    }
  }

  lemma HoldsMore(queued: set<ServiceMsg>, boxes: Boxes, queue: Queues, id: nat, m: ServiceMsg)
    requires Holds(queued, boxes, queue) && id in boxes && m.Valid()
    ensures Holds(queued + {m}, boxes[id := boxes[id] + [m]], queue[id := queue[id] + [m.Content()]])
  {
    var boxes', queue' := boxes[id := boxes[id] + [m]], queue[id := queue[id] + [m.Content()]];
    forall k, i | k in boxes' && 0 <= i < |boxes'[k]|
      ensures boxes'[k][i] in queued + {m} && boxes'[k][i].Valid() && boxes'[k][i].Content() == queue'[k][i]
    {
      if k != id || i < |boxes[id]| {
        assert boxes'[k][i] == boxes[k][i];
      }
    }
  }

  lemma HoldsLess(queued: set<ServiceMsg>, boxes: Boxes, queue: Queues, id: nat)
    requires Holds(queued, boxes, queue) && id in boxes && boxes[id] != []
    requires var boxes' := boxes[id := boxes[id][1..]];
             forall k, i :: k in boxes' && 0 <= i < |boxes'[k]| ==> boxes'[k][i] != boxes[id][0]
    ensures boxes[id][0] in queued && queue[id] != []
    ensures Holds(queued - {boxes[id][0]}, boxes[id := boxes[id][1..]], queue[id := queue[id][1..]])
  {
    var boxes', queue' := boxes[id := boxes[id][1..]], queue[id := queue[id][1..]];
    forall k, i | k in boxes' && 0 <= i < |boxes'[k]|
      ensures boxes'[k][i] in queued - {boxes[id][0]} && boxes'[k][i].Valid() && boxes'[k][i].Content() == queue'[k][i]
    {
      assert boxes'[k][i] == boxes[k][if k == id then i + 1 else i];
    }
  }

  lemma HistoryMore(queue: Queues, accepted: Queues, delivered: Queues, id: nat, r: Record)
    requires History(queue, accepted, delivered) && id in queue
    ensures id in accepted && id in delivered
    ensures History(queue[id := queue[id] + [r]], accepted[id := accepted[id] + [r]], delivered)
  {
    assert (accepted[id] + [r])[..|delivered[id]|] == accepted[id][..|delivered[id]|];
  }

  lemma HistoryOut(queue: Queues, accepted: Queues, delivered: Queues, id: nat)
    requires History(queue, accepted, delivered) && id in queue && queue[id] != []
    ensures id in delivered
    ensures History(queue[id := queue[id][1..]], accepted, delivered[id := delivered[id] + [Seen(queue[id][0])]])
  {
    var n := |delivered[id]|;
    assert queue[id][1..] == accepted[id][n + 1..];
    assert accepted[id][..n + 1] == accepted[id][..n] + [queue[id][0]];
  }

  lemma HoldsKeys(queued: set<ServiceMsg>, boxes: Boxes, queue: Queues)
    requires Holds(queued, boxes, queue)
    ensures boxes.Keys == queue.Keys
  {
  }

  lemma HoldsFront(queued: set<ServiceMsg>, boxes: Boxes, queue: Queues, id: nat)
    requires Holds(queued, boxes, queue) && id in boxes && boxes[id] != []
    ensures id in queue && queue[id] != [] && boxes[id][0].Valid() && boxes[id][0].Content() == queue[id][0]
  {
  }

  /** The values in the mailboxes do not matter for where the objects are. */
  lemma PlacedSame(l: Ledger, l': Ledger, pool: seq<ServiceMsg>, boxes: Boxes)
    requires Placed(l, pool, boxes) && l' == l.(queue := l'.queue, accepted := l'.accepted)
    ensures Placed(l', pool, boxes)
  {
  }

  /** The books after a message is sent. */
  lemma SendBooks(l: Ledger, pool: seq<ServiceMsg>, boxes: Boxes, m: ServiceMsg, id: nat)
    requires Placed(l, pool, boxes) && Holds(l.queued, boxes, l.queue) && History(l.queue, l.accepted, l.delivered)
    requires m in l.place && l.place[m] == InHand && m.Valid() && id in boxes
    ensures id in l.queue && id in l.accepted && id in l.delivered
    ensures var l' := Moved(Received(l, id, m.Content()), m, InBox(id, |l.delivered[id]| + |boxes[id]|));
            var boxes' := boxes[id := boxes[id] + [m]];
            && l'.place.Keys == l.place.Keys
            && Placed(l', pool, boxes') && Holds(l'.queued, boxes', l'.queue)
            && History(l'.queue, l'.accepted, l'.delivered)
  {
    hide Holds, History, Placed;
    HoldsKeys(l.queued, boxes, l.queue);
    HoldsMore(l.queued, boxes, l.queue, id, m);
    HistoryMore(l.queue, l.accepted, l.delivered, id, m.Content());
    PlacedMore(l, pool, boxes, m, id);
    var place := InBox(id, |l.delivered[id]| + |boxes[id]|);
    PlacedSame(Moved(l, m, place), Moved(Received(l, id, m.Content()), m, place), pool, boxes[id := boxes[id] + [m]]);
  }

  /** The books after a message is taken from the front of a mailbox. */
  lemma TakeBooks(l: Ledger, pool: seq<ServiceMsg>, boxes: Boxes, id: nat)
    requires Placed(l, pool, boxes) && Holds(l.queued, boxes, l.queue) && History(l.queue, l.accepted, l.delivered)
    requires id in boxes && boxes[id] != []
    ensures id in l.queue && l.queue[id] != [] && id in l.delivered
    ensures var m := boxes[id][0];
            m in l.place && m.Valid() && m.Content() == l.queue[id][0]
    ensures var l', boxes' := Moved(HandedOver(l, id), boxes[id][0], InHand), boxes[id := boxes[id][1..]];
            && l'.place.Keys == l.place.Keys
            && Placed(l', pool, boxes') && Holds(l'.queued, boxes', l'.queue)
            && History(l'.queue, l'.accepted, l'.delivered)
  {
    hide Objects, Holds, History, Placed, Seen;
    HoldsFront(l.queued, boxes, l.queue, id);
    PlacedFront(l, pool, boxes, id, Seen(l.queue[id][0]));
    HoldsLess(l.queued, boxes, l.queue, id);
    HistoryOut(l.queue, l.accepted, l.delivered, id);
    PlacedSame(Moved(l.(delivered := HandedOver(l, id).delivered), boxes[id][0], InHand),
               Moved(HandedOver(l, id), boxes[id][0], InHand), pool, boxes[id := boxes[id][1..]]);
  }

  lemma FrontPlaced(l: Ledger, pool: seq<ServiceMsg>, boxes: Boxes, id: nat)
    requires Placed(l, pool, boxes) && id in boxes && boxes[id] != []
    ensures boxes[id][0] in l.place
  {
  }

  lemma PlacedOpen(l: Ledger, pool: seq<ServiceMsg>, boxes: Boxes, id: nat)
    requires Placed(l, pool, boxes) && id !in boxes
    ensures Placed(Opened(l, id), pool, boxes[id := []])
  {
  }

  lemma HoldsOpen(queued: set<ServiceMsg>, boxes: Boxes, queue: Queues, id: nat)
    requires Holds(queued, boxes, queue) && id !in boxes
    ensures Holds(queued, boxes[id := []], queue[id := []])
  {
  }

  lemma HistoryOpen(queue: Queues, accepted: Queues, delivered: Queues, id: nat)
    requires History(queue, accepted, delivered) && id !in accepted
    ensures id !in queue && History(queue[id := []], accepted[id := []], delivered[id := []])
  {
  }

  lemma OpenBooks(l: Ledger, pool: seq<ServiceMsg>, boxes: Boxes, id: nat)
    requires Placed(l, pool, boxes) && Holds(l.queued, boxes, l.queue) && History(l.queue, l.accepted, l.delivered)
    requires id !in l.accepted
    ensures Opened(l, id).place == l.place && Opened(l, id).queued == l.queued
    ensures Placed(Opened(l, id), pool, boxes[id := []]) && Holds(l.queued, boxes[id := []], Opened(l, id).queue)
    ensures History(Opened(l, id).queue, Opened(l, id).accepted, Opened(l, id).delivered)
  {
    hide Placed, History;
    HistoryOpen(l.queue, l.accepted, l.delivered, id);
    HoldsOpen(l.queued, boxes, l.queue, id);
    PlacedOpen(l, pool, boxes, id);
  }

  lemma CloseBooks(l: Ledger, pool: seq<ServiceMsg>, boxes: Boxes, id: nat)
    requires Placed(l, pool, boxes) && Holds(l.queued, boxes, l.queue) && History(l.queue, l.accepted, l.delivered)
    ensures Stopped(l, id).place == l.place && Stopped(l, id).queued == l.queued
    ensures Placed(Stopped(l, id), pool, boxes - {id}) && Holds(l.queued, boxes - {id}, Stopped(l, id).queue)
    ensures History(Stopped(l, id).queue, Stopped(l, id).accepted, Stopped(l, id).delivered)
  {
    assert (boxes - {id}).Keys == (l.queue - {id}).Keys;
  }

  /** From `l` on, service `id` was handed `batch` and nothing else happened. */
  ghost predicate Handing(l: Ledger, l': Ledger, id: nat, batch: seq<Record>) {
    && l'.accepted == l.accepted
    && id in l.queue && id in l'.queue && l'.queue == l.queue[id := l'.queue[id]]
    && id in l.delivered && l'.delivered == l.delivered[id := l.delivered[id] + batch]
    && batch + SeenAll(l'.queue[id]) == SeenAll(l.queue[id])
  }

  lemma HandingStart(l: Ledger, id: nat)
    requires id in l.queue && id in l.delivered
    ensures Handing(l, l, id, [])
  {
    assert l.delivered[id] + [] == l.delivered[id];
  }

  lemma HandingNext(l: Ledger, l1: Ledger, l2: Ledger, id: nat, batch: seq<Record>, r: Record)
    requires Handing(l, l1, id, batch) && l1.queue[id] != [] && id in l1.delivered && r == Seen(l1.queue[id][0])
    requires l2.accepted == l1.accepted && l2.queue == HandedOver(l1, id).queue
        && l2.delivered == HandedOver(l1, id).delivered
    ensures Handing(l, l2, id, batch + [r])
  {
    hide SeenAll;
    SeenFront(l1.queue[id]);
    assert l.delivered[id] + batch + [r] == l.delivered[id] + (batch + [r]);
  }

  lemma HandingDone(l: Ledger, l': Ledger, id: nat, batch: seq<Record>)
    requires Handing(l, l', id, batch) && l'.queue[id] == []
    ensures l'.accepted == l.accepted && l'.queue == l.queue[id := []] && batch == SeenAll(l.queue[id])
    ensures l'.delivered == l.delivered[id := l.delivered[id] + batch]
  {
  }

  // ---------------------------------------------------------------- the pool and the mailboxes

  class Mail {
    var pool: seq<ServiceMsg>
    // The services of the node with their mailboxes, and those that are initialised.
    var boxes: Boxes
    var ready: set<nat>
    ghost var ledger: Ledger

    ghost predicate Valid()
      reads this, ledger.place.Keys
    {
      && Objects(ledger.place.Keys)
      && Placed(ledger, pool, boxes)
      && Idle(pool)
      && Holds(ledger.queued, boxes, ledger.queue)
      && History(ledger.queue, ledger.accepted, ledger.delivered)
      && ready <= boxes.Keys
    }

    /** The descriptor left in the message that the pool gives out next. */
    function Leftover(): nat
      reads this, if |pool| > 0 then {pool[0]} else {}
    {
      if |pool| > 0 then pool[0].fd else 0
    }

    /** Before any service exists. */
    constructor (num: nat)
      ensures Valid() && |pool| == num && boxes == map[] && fresh(ledger.place.Keys)
      ensures ledger.accepted == map[]
    {
      pool, boxes, ready, ledger := [], map[], {}, Ledger(map[], map[], map[], map[], 0, {});
      new;
      for i := 0 to num
        invariant Valid() && |pool| == i && boxes == map[] && fresh(ledger.place.Keys)
        invariant ledger.accepted == map[]
      {
        var m := Make();
        Push(m);
      }
    }

    /** A new message object. */
    method Make() returns (m: ServiceMsg)
      requires Valid()
      modifies this`ledger
      ensures Valid() && fresh(m) && m in ledger.place && m.Content() == ZERO
      ensures ledger == Moved(old(ledger), m, InHand)
    {
      hide History, Placed, Objects;
      m := new ServiceMsg();
      PlacedNew(ledger, pool, boxes, m);
      ObjectsJoin(ledger.place.Keys, m);
      assert Moved(ledger, m, InHand).place.Keys == ledger.place.Keys + {m};
      ledger := Moved(ledger, m, InHand);
    }

    /** ServiceMsgPool::pop, which here releases the lock it took. */
    method Pop() returns (m: ServiceMsg)
      requires Valid()
      modifies this`pool, this`ledger
      ensures Valid() && m in ledger.place && ledger.place[m] == InHand && (m in old(ledger).place || fresh(m))
      ensures m.Content() == ZERO.(fd := m.fd) && m.fd == old(Leftover())
      ensures ledger == Moved(old(ledger), m, InHand).(taken := ledger.taken)
    {
      hide Objects, Placed, Holds, History, Idle;
      if |pool| == 0 {
        m := Make();
      } else {
        m := pool[0];
        PlacedTake(ledger, pool, boxes);
        IdleFront(pool);
        assert Moved(ledger, m, InHand).place.Keys == ledger.place.Keys && ledger.queued - {m} == ledger.queued;
        pool, ledger := pool[1..], Moved(ledger, m, InHand).(taken := ledger.taken + 1);
      }
    }

    /** A sender fills the message it holds; nobody else's message changes. */
    method Fill(m: ServiceMsg, p: Post)
      requires Valid() && m in ledger.place && ledger.place[m] == InHand
      requires m.Content() == ZERO.(fd := m.fd)
      modifies m
      ensures Valid() && m.Content() == Written(p, old(m.fd))
      ensures Seen(m.Content()) == Intended(p) <==> Carried(p) && (HasPeer(p) || old(m.fd) == 0)
    {
      hide History, Written, Intended, Carried, Holds;
      PlacedPush(ledger, pool, boxes, m);
      hide Placed;
      m.Write(p);
    }

    /** A message nobody will get: its last owner lets it go. */
    method Drop(m: ServiceMsg)
      requires Valid() && m in ledger.place && ledger.place[m] == InHand
      modifies this`ledger
      ensures Valid() && ledger == old(ledger).(place := old(ledger).place - {m})
    {
      hide Objects, Placed, Idle, History, Holds;
      PlacedDrop(ledger, pool, boxes, m);
      ObjectsLess(ledger.place.Keys, ledger.place.Keys - {m});
      ledger := ledger.(place := ledger.place - {m});
    }

    /** Service::pushMsg of an initialised service. */
    method Accept(id: nat, m: ServiceMsg)
      requires Valid() && m in ledger.place && ledger.place[m] == InHand && id in boxes
      modifies this`boxes, this`ledger
      ensures Valid() && id in old(ledger).queue && id in old(ledger).accepted && m in ledger.place
      ensures boxes == old(boxes)[id := old(boxes)[id] + [m]]
      ensures ledger == Moved(Received(old(ledger), id, m.Content()), m, ledger.place[m])
    {
      hide Objects, Placed, Idle, History, Holds;
      ValidAt(ledger.place.Keys, m);
      SendBooks(ledger, pool, boxes, m, id);
      ledger := Moved(Received(ledger, id, m.Content()), m, InBox(id, |ledger.delivered[id]| + |boxes[id]|));
      boxes := boxes[id := boxes[id] + [m]];
    }

    /** ServiceMgr::send and Service::pushMsg: a message for a missing or stopped service is dropped. */
    method Send(target: nat, m: ServiceMsg)
      requires Valid() && m in ledger.place && ledger.place[m] == InHand
      modifies this`boxes, this`ledger
      ensures Valid() && ledger.place.Keys <= old(ledger).place.Keys && boxes.Keys == old(boxes).Keys
      ensures target in ready ==>
        && target in old(ledger).queue && target in old(ledger).accepted && m in ledger.place
        && ledger == Moved(Received(old(ledger), target, m.Content()), m, ledger.place[m])
      ensures target !in ready ==> ledger == old(ledger).(place := old(ledger).place - {m})
    {
      hide Objects, Placed, Idle, History, Holds;
      if target !in boxes || target !in ready {
        Drop(m);
      } else {
        Accept(target, m);
      }
    }

    /** The front of a mailbox is taken out of it. */
    method Take(id: nat) returns (m: ServiceMsg)
      requires Valid() && id in boxes && boxes[id] != []
      modifies this`boxes, this`ledger
      ensures Valid() && m == old(boxes)[id][0] && boxes == old(boxes)[id := old(boxes)[id][1..]]
      ensures id in old(ledger).queue && old(ledger).queue[id] != [] && id in old(ledger).delivered
      ensures m in ledger.place
      ensures m.Content() == old(ledger).queue[id][0]
      ensures ledger == Moved(HandedOver(old(ledger), id), m, InHand)
    {
      hide Objects, Placed, Holds, History, Idle;
      m := boxes[id][0];
      TakeBooks(ledger, pool, boxes, id);
      ledger := Moved(HandedOver(ledger, id), m, InHand);
      boxes := boxes[id := boxes[id][1..]];
    }

    /** ServiceMsgPool::push. */
    method Push(m: ServiceMsg)
      requires Valid() && m in ledger.place && ledger.place[m] == InHand
      modifies this`pool, this`ledger, m
      ensures Valid() && pool == old(pool) + [m]
          && ledger == Moved(old(ledger), m, InPool(old(ledger).taken + |old(pool)|))
    {
      hide Placed, Holds, History;
      PlacedPush(ledger, pool, boxes, m);
      m.Reset();
      assert Moved(ledger, m, InPool(ledger.taken + |pool|)).place.Keys == ledger.place.Keys
          && ledger.queued - {m} == ledger.queued;
      ledger := Moved(ledger, m, InPool(ledger.taken + |pool|));
      pool := pool + [m];
    }

    /** One round of the loop of Service::poll: copy the front message out, then recycle its object. */
    method Drain(id: nat) returns (r: Record)
      requires Valid() && id in boxes && boxes[id] != []
      modifies this`boxes, this`ledger, this`pool, boxes[id][0]
      ensures Valid() && boxes == old(boxes)[id := old(boxes)[id][1..]]
      ensures id in old(ledger).queue && old(ledger).queue[id] != [] && id in old(ledger).delivered
      ensures r == Seen(old(ledger).queue[id][0])
      ensures ledger.queue == HandedOver(old(ledger), id).queue
      ensures ledger.delivered == old(ledger).delivered[id := old(ledger).delivered[id] + [r]]
      ensures ledger.accepted == old(ledger).accepted && ledger.place.Keys == old(ledger).place.Keys
    {
      hide Objects, Placed, Holds, History, Idle;
      ghost var ms := ledger.place.Keys;
      FrontPlaced(ledger, pool, boxes, id);
      var m := Take(id);
      ValidAt(ledger.place.Keys, m);
      r := Record(m.source, m.session, m.msgType, m.status, m.fd, m.isOk, m.data[..m.dataLen], CutNul(m.error));
      Push(m);
      assert ledger.place.Keys == ms;
    }

    /** Service::poll builds the batch for onPoll, if the service runs and defines one. */
    method Poll(id: nat, hasOnPoll: bool) returns (batch: seq<Record>)
      requires Valid()
      modifies this`boxes, this`ledger, this`pool, ledger.place.Keys
      ensures Valid() && ledger.accepted == old(ledger).accepted && boxes.Keys == old(boxes).Keys
      ensures id in ready && hasOnPoll ==>
        && id in old(ledger).queue && batch == SeenAll(old(ledger).queue[id])
        && ledger.queue == old(ledger).queue[id := []]
        && id in old(ledger).delivered
        && ledger.delivered == old(ledger).delivered[id := old(ledger).delivered[id] + batch]
      ensures !(id in ready && hasOnPoll) ==> batch == [] && ledger == old(ledger)
    {
      hide Objects, Placed, Holds, History, Idle, Seen, SeenAll, Handing;
      batch := [];
      if id !in ready || !hasOnPoll {
        return;
      }
      ghost var l := ledger;
      var _ := Lengths(id);
      HandingStart(l, id);
      while boxes[id] != []
        invariant Valid() && id in boxes && boxes.Keys == old(boxes).Keys && ledger.place.Keys == l.place.Keys
        invariant Handing(l, ledger, id, batch) && id in ledger.queue && |ledger.queue[id]| == |boxes[id]|
        decreases |boxes[id]|
      {
        FrontPlaced(ledger, pool, boxes, id);
        ghost var l1 := ledger;
        var r := Drain(id);
        HandingNext(l, l1, ledger, id, batch, r);
        batch := batch + [r];
      }
      HandingDone(l, ledger, id, batch);
    }

    /** A mailbox and its queue of values have the same length. */
    ghost method Lengths(id: nat) returns (q: seq<Record>)
      requires Valid() && id in boxes
      ensures id in ledger.delivered && id in ledger.queue
      ensures |ledger.queue[id]| == |boxes[id]| && q == ledger.queue[id]
    {
      q := ledger.queue[id];
    }

    /** ServiceMgr::newService for a number not used before; a service whose script fails is never initialised. */
    method AddService(id: nat, isInit: bool)
      requires Valid() && id !in ledger.accepted
      modifies this`boxes, this`ledger, this`ready
      ensures Valid() && boxes == old(boxes)[id := []] && ledger == Opened(old(ledger), id)
      ensures ready == if isInit then old(ready) + {id} else old(ready)
    {
      hide Objects, Placed, Holds, History, Idle, Opened;
      OpenBooks(ledger, pool, boxes, id);
      ledger := Opened(ledger, id);
      boxes := boxes[id := []];
      if isInit {
        ready := ready + {id};
      }
    }

    /** ServiceMgr::destoryService: the service stops, and what its mailbox held is never recycled. */
    method CloseService(id: nat)
      requires Valid()
      modifies this`boxes, this`ledger, this`ready
      ensures Valid() && boxes == old(boxes) - {id} && ready == old(ready) - {id} && ledger == Stopped(old(ledger), id)
    {
      hide Objects, Placed, Holds, History, Idle, Stopped;
      CloseBooks(ledger, pool, boxes, id);
      ready := ready - {id};
      boxes := boxes - {id};
      ledger := Stopped(ledger, id);
    }

    /** What a producer does from end to end; core.send refuses message types that are not positive. */
    method Post(target: nat, p: Post)
      requires Valid()
      modifies this`boxes, this`ledger, this`pool, ledger.place.Keys
      ensures Valid() && boxes.Keys == old(boxes).Keys && ready == old(ready)
      ensures ledger.delivered == old(ledger).delivered
      ensures (p.Lua? && p.msgType <= 0) || target !in ready ==>
        ledger.queue == old(ledger).queue && ledger.accepted == old(ledger).accepted
      ensures !(p.Lua? && p.msgType <= 0) && target in ready ==>
        && target in old(ledger).accepted && target in old(ledger).queue
        && var r := Written(p, old(Leftover()));
           && ledger.accepted == old(ledger).accepted[target := old(ledger).accepted[target] + [r]]
           && ledger.queue == old(ledger).queue[target := old(ledger).queue[target] + [r]]
           && (Seen(r) == Intended(p) <==> Carried(p) && (HasPeer(p) || old(Leftover()) == 0))
    {
      hide Objects, Placed, Holds, History, Idle, Written, Intended, Carried;
      if p.Lua? && p.msgType <= 0 {
        return;
      }
      var m := Pop();
      Fill(m, p);
      Send(target, m);
    }
  }

  /** An object is in at most one place: at one position of the pool, at one of one mailbox, or with a sender. */
  lemma Exclusive(mail: Mail)
    requires mail.Valid()
    ensures Distinct(mail.pool)
    ensures forall id :: id in mail.boxes ==>
              Distinct(mail.boxes[id]) && forall m :: m in mail.boxes[id] ==> m !in mail.pool
    ensures forall j, k :: j in mail.boxes && k in mail.boxes && j != k ==>
              forall m :: m in mail.boxes[j] ==> m !in mail.boxes[k]
    ensures forall m :: m in mail.ledger.place && mail.ledger.place[m] == InHand ==>
              m !in mail.pool && forall id :: id in mail.boxes ==> m !in mail.boxes[id]
  {
    hide Objects, Holds, History, Idle;
    var l, boxes := mail.ledger, mail.boxes;
    forall id, i, j | id in boxes && 0 <= i < j < |boxes[id]| ensures boxes[id][i] != boxes[id][j] {
      assert l.place[boxes[id][i]] == InBox(id, |l.delivered[id]| + i);
    }
  }

  /** What the messages of a mailbox say. */
  ghost function Contents(box: seq<ServiceMsg>): seq<Record>
    requires forall m :: m in box ==> m.Valid()
    reads box
  {
    if box == [] then [] else [box[0].Content()] + Contents(box[1..])
  }

  lemma {:induction false} ContentsAre(box: seq<ServiceMsg>, rs: seq<Record>)
    requires |box| == |rs| && forall i :: 0 <= i < |box| ==> box[i].Valid() && box[i].Content() == rs[i]
    ensures (forall m :: m in box ==> m.Valid()) && Contents(box) == rs
    decreases |box|
  {
    if box != [] {
      ContentsAre(box[1..], rs[1..]);
    }
  }

  lemma SeenFront(rs: seq<Record>)
    requires rs != []
    ensures SeenAll(rs) == [Seen(rs[0])] + SeenAll(rs[1..])
  {
  }

  lemma SeenConcat(a: seq<Record>, b: seq<Record>)
    ensures SeenAll(a + b) == SeenAll(a) + SeenAll(b)
  {
  }

  /**
   Recycling is invisible. Whatever its objects were used for before, what a service was handed, followed by what its
   mailbox says, is what it accepted: in order, nothing lost, nothing twice, nothing changed.
   */
  lemma MailboxIsQueue(mail: Mail, id: nat)
    requires mail.Valid() && id in mail.boxes
    ensures forall m :: m in mail.boxes[id] ==> m.Valid()
    ensures id in mail.ledger.accepted && id in mail.ledger.delivered
    ensures mail.ledger.delivered[id] + SeenAll(Contents(mail.boxes[id])) == SeenAll(mail.ledger.accepted[id])
  {
    hide Objects, Placed, Idle, SeenAll, Contents;
    var l := mail.ledger;
    ContentsAre(mail.boxes[id], l.queue[id]);
    SeenConcat(l.accepted[id][..|l.delivered[id]|], l.queue[id]);
    assert l.accepted[id] == l.accepted[id][..|l.delivered[id]|] + l.queue[id];
  }

  predicate Fits(n: int) {
    0 <= n < U32
  }

  /**
   A message the recipient can get as intended: 32-bit numbers, no body in the reply to a POST, an error without NUL.
   */
  predicate Carried(p: Post) {
    && Fits(Intended(p).source) && Fits(Intended(p).session) && Fits(Intended(p).msgType) && Fits(Intended(p).fd)
    && !(p.PostReply? && p.data != []) && 0 !in Intended(p).error
  }

  /**
   A recipient reads what was intended exactly when it can be carried, and is told a peer or is left a clean number.
   */
  lemma IntendedArrives(p: Post, fd: nat)
    ensures Seen(Written(p, fd)) == Intended(p) <==> Carried(p) && (HasPeer(p) || fd == 0)
  {
    CutNothing(Intended(p).error);
  }

  /** An error text arrives whole exactly when it has no NUL byte. */
  lemma ErrorArrives(p: Post, fd: nat)
    requires p.SocketEvent? || p.GetReply? || p.PostReply?
    ensures Seen(Written(p, fd)).error == p.error <==> 0 !in p.error
  {
    CutNothing(p.error);
  }

  /** The fd a recipient sees is left over from an earlier message exactly when the sender has no peer number. */
  lemma StalePeer(p: Post)
    ensures (forall f, g :: Written(p, f) == Written(p, g)) <==> HasPeer(p)
  {
    if !HasPeer(p) {
      assert Written(p, 0).fd != Written(p, 1).fd;
    }
  }
}
