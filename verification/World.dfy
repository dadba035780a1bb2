/** The socket layer as one machine: `roomEvents.js`, `presenceEvents.js`, `sfuEvents.js` and
    `signalingEvents.js` over the peer map, the SFU and the limiter. Each handler is one step. */
module World {
  import opened Ids
  import opened JsMaps
  import opened SfuModel
  import PeerMap
  import RateLimiter

  datatype Seat = Seat(room: RoomId, socket: SocketId)

  datatype Msg =
    | Snapshot(others: seq<Entry>)  // the ack of sfu:get-rtp-capabilities
    | NewProducer(entry: Entry)
    | ProducerClosed(producerId: Id, socketId: SocketId)
    | Signal(room: RoomId, fromSocket: SocketId, fromUser: UserId)  // offer, answer or ICE candidate

  datatype World = World(
    users: map<SocketId, UserId>,           // socket.user.id of every socket that ever connected
    data: map<SocketId, Option<RoomId>>,    // socket.data.roomId of the connected ones
    joined: set<Seat>,                      // the socket.io rooms
    peers: PeerMap.Peers,
    sfu: Sfu,
    rates: map<RateLimiter.Key, RateLimiter.Window>,
    inbox: map<SocketId, seq<Msg>>,         // emitted, not yet received, in order
    views: map<SocketId, set<Entry>>,       // what each client believes it can consume
    synced: set<SocketId>)                  // has had a snapshot since it entered its room

  function Initial(workers: seq<nat>): World {
    World(map[], map[], {}, map[],
          Sfu(workers, 0, map[], map[], Media(map[], map[], map[], map[], {}, 0)),
          map[], map[], map[], {})
  }

  datatype Action =
    | Connect(socket: SocketId, user: UserId)
    | Join(socket: SocketId, room: RoomId, dbOk: bool)
    | Leave(socket: SocketId, target: Option<RoomId>, dbOk: bool)
    | Disconnect(socket: SocketId)
    | Kick(socket: SocketId, target: Option<RoomId>, user: UserId, dbOk: bool)
    | Post(socket: SocketId, target: Option<RoomId>, kind: RateLimiter.PostKind, valid: bool, blank: bool, now: RateLimiter.Time)
    | Relay(socket: SocketId, room: RoomId, to: SocketId)
    | GetCapabilities(socket: SocketId)
    | NewTransport(socket: SocketId, direction: Direction)
    | StartProducing(socket: SocketId, transport: Id, media: Kind)
    | StartConsuming(socket: SocketId, producer: Id, compatible: bool)
    | Resume(socket: SocketId, consumer: Id)
    | ProducerCloseArrives(consumer: Id)
    | Receive(socket: SocketId)

  /** The handlers of `sfuEvents.js`, and mediasoup's own notification. */
  predicate SfuAction(a: Action) {
    a.GetCapabilities? || a.NewTransport? || a.StartProducing? || a.StartConsuming? || a.Resume? || a.ProducerCloseArrives?
  }

  // ---- messages ----

  function Watch1(view: set<Entry>, m: Msg): set<Entry> {
    match m
    case Snapshot(others) => set e | e in others
    case NewProducer(e) => view + {e}
    case ProducerClosed(p, _) => set e | e in view && e.producerId != p
    case Signal(_, _, _) => view
  }

  /** A client's view after it has received `ms`. */
  function Watch(view: set<Entry>, ms: seq<Msg>): set<Entry>
    decreases |ms|
  {
    if ms == [] then view else Watch(Watch1(view, ms[0]), ms[1..])
  }

  function Send(inbox: map<SocketId, seq<Msg>>, to: set<SocketId>, ms: seq<Msg>): map<SocketId, seq<Msg>> {
    map s | s in inbox :: if s in to then inbox[s] + ms else inbox[s]
  }

  function ClosedMsgs(ids: seq<Id>, socket: SocketId): seq<Msg> {
    seq(|ids|, i requires 0 <= i < |ids| => ProducerClosed(ids[i], socket))
  }

  // ---- the handlers ----

  function RoomOf(w: World, s: SocketId): Option<RoomId> {
    if s in w.data then w.data[s] else None
  }

  /** The room named in the payload, otherwise the socket's own. */
  function Target(w: World, s: SocketId, target: Option<RoomId>): Option<RoomId> {
    if target.Some? then target else RoomOf(w, s)
  }

  /** The sockets of a room but for the sender. */
  function Audience(w: World, room: RoomId, except: SocketId): set<SocketId> {
    set s | s in w.inbox && Seat(room, s) in w.joined && s != except
  }

  function CleanupSfuPeer(w: World, s: SocketId): World {
    match RoomOf(w, s)
    case None => w
    case Some(room) =>
      var o := Owner(room, s);
      w.(sfu := RemovePeer(w.sfu, o),
         inbox := Send(w.inbox, Audience(w, room, s), ClosedMsgs(ListOwnProducerIds(w.sfu, o), s)))
  }

  function OnConnect(w: World, s: SocketId, user: UserId): World {
    if s in w.users then w
    else w.(users := w.users[s := user], data := w.data[s := None], inbox := w.inbox[s := []], views := w.views[s := {}])
  }

  function OnJoin(w: World, s: SocketId, room: RoomId, dbOk: bool): World {
    if s !in w.data || s !in w.users || !dbOk then w
    else
      w.(joined := w.joined + {Seat(room, s)},
         data := w.data[s := Some(room)],
         peers := PeerMap.AddPeer(w.peers, room, s, w.users[s]),
         synced := if w.data[s] == Some(room) then w.synced else w.synced - {s})
  }

  function OnLeave(w: World, s: SocketId, target: Option<RoomId>, dbOk: bool): World {
    match Target(w, s, target)
    case None => w
    case Some(room) =>
      if s !in w.data || !dbOk then w
      else
        var w1 := CleanupSfuPeer(w.(peers := PeerMap.RemovePeer(w.peers, room, s)), s);
        w1.(joined := w1.joined - {Seat(room, s)}, data := w1.data[s := None], synced := w1.synced - {s})
  }

  function OnDisconnect(w: World, s: SocketId): World {
    if s !in w.data then w
    else
      var w1 := w.(rates := w.rates - {RateLimiter.Key(s, RateLimiter.Chat), RateLimiter.Key(s, RateLimiter.Reaction)});
      var w2 := match w.data[s]
        case None => w1
        case Some(room) => CleanupSfuPeer(w1.(peers := PeerMap.RemovePeer(w1.peers, room, s)), s);
      w2.(joined := (set x | x in w2.joined && x.socket != s),
          data := w2.data - {s}, inbox := w2.inbox - {s}, views := w2.views - {s}, synced := w2.synced - {s})
  }

  /** Evicts the target user's last socket of the room. The SFU is not told. */
  function OnKick(w: World, s: SocketId, target: Option<RoomId>, user: UserId, dbOk: bool): World {
    match Target(w, s, target)
    case None => w
    case Some(room) =>
      if s !in w.data || !dbOk then w
      else
        match PeerMap.SocketOfUser(w.peers, room, user)
        case None => w
        case Some(victim) =>
          if victim !in w.data then w
          else
            w.(peers := PeerMap.RemovePeer(w.peers, room, victim),
               joined := w.joined - {Seat(room, victim)},
               data := w.data[victim := None],
               synced := w.synced - {victim})
  }

  /** A chat message or reaction, up to its relay. A chat message that is blank once trimmed is counted
      by the limiter all the same. */
  function OnPost(w: World, s: SocketId, target: Option<RoomId>, kind: RateLimiter.PostKind, valid: bool,
                  now: RateLimiter.Time): World {
    var room := Target(w, s, target);
    if room.None? || !valid || RoomOf(w, s) != room then w
    else w.(rates := RateLimiter.Apply(w.rates, RateLimiter.Request(RateLimiter.Key(s, kind), now)))
  }

  /** Whether a post now would be relayed. */
  predicate RelaysPost(w: World, s: SocketId, target: Option<RoomId>, kind: RateLimiter.PostKind, valid: bool, blank: bool,
                       now: RateLimiter.Time) {
    valid && RoomOf(w, s).Some? && Target(w, s, target) == RoomOf(w, s) && !(kind.Chat? && blank) &&
    !RateLimiter.Limited(RateLimiter.Lookup(w.rates, RateLimiter.Key(s, kind)),
                         RateLimiter.MaxOf(kind), RateLimiter.WindowOf(kind), now)
  }

  predicate CanRelayWithinRoom(w: World, room: RoomId, s: SocketId, to: SocketId) {
    PeerMap.IsPeer(w.peers, room, s) && PeerMap.IsPeer(w.peers, room, to)
  }

  function OnRelay(w: World, s: SocketId, room: RoomId, to: SocketId): World {
    if s !in w.data || s !in w.users || !CanRelayWithinRoom(w, room, s, to) then w
    else w.(inbox := Send(w.inbox, {to}, [Signal(room, s, w.users[s])]))
  }

  function OnGetCapabilities(w: World, s: SocketId): World {
    match RoomOf(w, s)
    case None => w
    case Some(room) =>
      if s !in w.users then w
      else
        match GetRtpCapabilities(w.sfu, Owner(room, s), w.users[s])
        case Err => w
        case Ok(sfu) =>
          w.(sfu := sfu,
             inbox := Send(w.inbox, {s}, [Snapshot(ListOtherProducers(sfu, room, s))]),
             synced := w.synced + {s})
  }

  function OnProduce(w: World, s: SocketId, transport: Id, kind: Kind): World {
    match RoomOf(w, s)
    case None => w
    case Some(room) =>
      if s !in w.users then w
      else
        match Produce(w.sfu, Owner(room, s), transport, kind)
        case Err => w
        case Ok(sfu) =>
          var entry := Entry(w.sfu.media.nextId, s, w.users[s], kind);
          w.(sfu := sfu, inbox := Send(w.inbox, Audience(w, room, s), [NewProducer(entry)]))
  }

  function WithSfu(w: World, r: Result<Sfu>): World {
    match r
    case Err => w
    case Ok(sfu) => w.(sfu := sfu)
  }

  function OnCreateTransport(w: World, s: SocketId, direction: Direction): World {
    match RoomOf(w, s)
    case None => w
    case Some(room) => WithSfu(w, CreateTransport(w.sfu, Owner(room, s), direction))
  }

  function OnConsume(w: World, s: SocketId, producer: Id, compatible: bool): World {
    match RoomOf(w, s)
    case None => w
    case Some(room) => WithSfu(w, Consume(w.sfu, Owner(room, s), producer, compatible))
  }

  function OnResumeConsumer(w: World, s: SocketId, consumer: Id): World {
    match RoomOf(w, s)
    case None => w
    case Some(room) => WithSfu(w, ResumeConsumer(w.sfu, Owner(room, s), consumer))
  }

  function OnProducerClose(w: World, consumer: Id): World {
    w.(sfu := DeliverProducerClose(w.sfu, consumer))
  }

  function OnReceive(w: World, s: SocketId): World {
    if s !in w.inbox || w.inbox[s] == [] || s !in w.views then w
    else w.(views := w.views[s := Watch1(w.views[s], w.inbox[s][0])], inbox := w.inbox[s := w.inbox[s][1..]])
  }

  function Step(w: World, a: Action): World {
    match a
    case Connect(s, u) => OnConnect(w, s, u)
    case Join(s, room, dbOk) => OnJoin(w, s, room, dbOk)
    case Leave(s, target, dbOk) => OnLeave(w, s, target, dbOk)
    case Disconnect(s) => OnDisconnect(w, s)
    case Kick(s, target, user, dbOk) => OnKick(w, s, target, user, dbOk)
    case Post(s, target, kind, valid, _, now) => OnPost(w, s, target, kind, valid, now)
    case Relay(s, room, to) => OnRelay(w, s, room, to)
    case GetCapabilities(s) => OnGetCapabilities(w, s)
    case NewTransport(s, d) => OnCreateTransport(w, s, d)
    case StartProducing(s, t, k) => OnProduce(w, s, t, k)
    case StartConsuming(s, p, c) => OnConsume(w, s, p, c)
    case Resume(s, c) => OnResumeConsumer(w, s, c)
    case ProducerCloseArrives(c) => OnProducerClose(w, c)
    case Receive(s) => OnReceive(w, s)
  }

  // ---- runs ----

  /** `states[n]` is the world before `actions[n]`; the last one is the world after them all. */
  datatype History = History(workers: seq<nat>, actions: seq<Action>, states: seq<World>)

  ghost predicate IsRun(h: History) {
    |h.states| == |h.actions| + 1 && h.states[0] == Initial(h.workers) &&
    forall n {:trigger Step(h.states[n], h.actions[n])} :: 0 <= n < |h.actions| ==>
      h.states[n + 1] == Step(h.states[n], h.actions[n])
  }

  /** Every sequence of actions has its run. */
  function Play(workers: seq<nat>, actions: seq<Action>): (h: History)
    ensures IsRun(h) && h.workers == workers && h.actions == actions
  {
    if actions == [] then History(workers, [], [Initial(workers)])
    else
      var n := |actions| - 1;
      var before := Play(workers, actions[..n]);
      History(workers, actions, before.states + [Step(before.states[n], actions[n])])
  }

  // ---- single-room discipline ----

  /** A socket joins only from no room or its own, and leaves only its own. */
  predicate Disciplined(w: World, a: Action) {
    match a
    case Join(s, room, dbOk) => s in w.data && dbOk ==> w.data[s].None? || w.data[s] == Some(room)
    case Leave(s, target, dbOk) => s in w.data && dbOk && target.Some? ==> w.data[s].None? || w.data[s] == target
    case _ => true
  }

  ghost predicate DisciplinedRun(h: History) {
    IsRun(h) && forall n :: 0 <= n < |h.actions| ==> Disciplined(h.states[n], h.actions[n])
  }
}
