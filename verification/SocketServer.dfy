/** The socket handlers in their own form: fields and service objects updated in place. Each method is
    one step of the machine in `World`. */
module SocketServer {
  import opened Ids
  import opened JsMaps
  import opened SfuModel
  import opened SfuProofs
  import W = World
  import opened Convergence
  import PeerMap
  import RateLimiter
  import SfuService

  class SocketServer {
    const sfuService: SfuService.SfuService
    const webrtcService: PeerMap.WebrtcService
    const limiter: RateLimiter.Limiter
    var users: map<SocketId, UserId>
    var data: map<SocketId, Option<RoomId>>
    var joined: set<W.Seat>
    var inbox: map<SocketId, seq<W.Msg>>
    var views: map<SocketId, set<Entry>>  // kept by the clients
    ghost var synced: set<SocketId>

    ghost predicate Valid()
      reads this, sfuService, sfuService.Repr
    {
      sfuService.Valid() && sfuService in sfuService.Repr &&
      this !in sfuService.Repr && webrtcService !in sfuService.Repr && limiter !in sfuService.Repr
    }

    ghost function View(): W.World
      requires Valid()
      reads this, sfuService, sfuService.Repr, webrtcService, limiter
    {
      W.World(users, data, joined, webrtcService.inMemoryRoomPeers, sfuService.View(), limiter.rateLimitState, inbox, views, synced)
    }

    constructor (installed: bool, numWorkers: int)
      ensures Valid() && fresh(sfuService.Repr) && fresh(webrtcService) && fresh(limiter)
      ensures View() == W.Initial(sfuService.workers)
    {
      users, data, joined, inbox, views, synced := map[], map[], {}, map[], map[], {};
      webrtcService := new PeerMap.WebrtcService();
      limiter := new RateLimiter.Limiter();
      sfuService := new SfuService.SfuService();
      new;
      sfuService.Init(installed, numWorkers);
    }

    // ---- sending ----

    method Emit(to: set<SocketId>, m: W.Msg)
      modifies this`inbox
      ensures inbox == W.Send(old(inbox), to, [m])
    {
      inbox := map s | s in inbox :: if s in to then inbox[s] + [m] else inbox[s];
    }

    method Recipients(room: RoomId, except: SocketId) returns (to: set<SocketId>)
      requires Valid()
      ensures to == W.Audience(View(), room, except)
    {
      to := set s | s in inbox && W.Seat(room, s) in joined && s != except;
    }

    // ---- sfuEvents.js ----

    method RemoveSfuPeer(o: Owner)
      requires Valid() && ConsumersOk(View().sfu)
      modifies sfuService.Repr
      ensures Valid() && sfuService.Repr == old(sfuService.Repr)
      ensures View() == old(View()).(sfu := RemovePeer(old(View()).sfu, o))
    {
      sfuService.RemovePeer(o);
    }

    method CleanupSfuPeer(s: SocketId)
      requires Valid() && ConsumersOk(View().sfu)
      modifies this`inbox, sfuService.Repr
      ensures Valid() && sfuService.Repr == old(sfuService.Repr)
      ensures View() == W.CleanupSfuPeer(old(View()), s)
    {
      if s !in data || data[s].None? {
        return;
      }
      var room := data[s].value;
      var producerIds := sfuService.ListOwnProducerIds(Owner(room, s));
      RemoveSfuPeer(Owner(room, s));
      AnnounceClosed(room, s, producerIds);
    }

    method AnnounceClosed(room: RoomId, s: SocketId, producerIds: seq<Id>)
      requires Valid()
      modifies this`inbox
      ensures Valid()
      ensures var w := old(View());
        View() == w.(inbox := W.Send(w.inbox, W.Audience(w, room, s), W.ClosedMsgs(producerIds, s)))
    {
      var to := Recipients(room, s);
      EmitClosed(to, producerIds, s);
    }

    method EmitClosed(to: set<SocketId>, producerIds: seq<Id>, s: SocketId)
      modifies this`inbox
      ensures inbox == W.Send(old(inbox), to, W.ClosedMsgs(producerIds, s))
    {
      ghost var before := inbox;
      var i := 0;
      SendNothing(before, to);
      assert W.ClosedMsgs(producerIds[..0], s) == [];
      while i < |producerIds|
        invariant i <= |producerIds|
        invariant inbox == W.Send(before, to, W.ClosedMsgs(producerIds[..i], s))
      {
        SendOneMore(before, to, W.ClosedMsgs(producerIds[..i], s), W.ProducerClosed(producerIds[i], s));
        assert W.ClosedMsgs(producerIds[..i + 1], s) == W.ClosedMsgs(producerIds[..i], s) + [W.ProducerClosed(producerIds[i], s)];
        Emit(to, W.ProducerClosed(producerIds[i], s));
        i := i + 1;
      }
      assert producerIds[..i] == producerIds;
    }

    method OnGetCapabilities(s: SocketId)
      requires Valid() && Inv(View().sfu)
      modifies this`inbox, this`synced, sfuService.Repr
      ensures Valid() && fresh(sfuService.Repr - old(sfuService.Repr))
      ensures View() == W.OnGetCapabilities(old(View()), s)
    {
      if s in data && data[s].Some? && s in users {
        AnswerCapabilities(data[s].value, s);
      }
    }

    method AnswerCapabilities(room: RoomId, s: SocketId)
      requires Valid() && Inv(View().sfu) && s in users
      modifies this`inbox, this`synced, sfuService.Repr
      ensures Valid() && fresh(sfuService.Repr - old(sfuService.Repr))
      ensures var w := old(View());
        var spec := GetRtpCapabilities(w.sfu, Owner(room, s), users[s]);
        View() ==
          if spec.Err? then w
          else
            w.(sfu := spec.value, synced := w.synced + {s},
               inbox := W.Send(w.inbox, {s}, [W.Snapshot(ListOtherProducers(spec.value, room, s))]))
    {
      var answer := AskCapabilities(room, s);
      if answer.Ok? {
        var others := OtherProducers(room, s);
        Acknowledge(s, others);
      }
    }

    method OtherProducers(room: RoomId, s: SocketId) returns (others: seq<Entry>)
      requires Valid() && ProducersOk(View().sfu)
      ensures others == ListOtherProducers(View().sfu, room, s)
    {
      others := sfuService.ListOtherProducers(room, s);
    }

    method Acknowledge(s: SocketId, others: seq<Entry>)
      requires Valid()
      modifies this`inbox, this`synced
      ensures Valid()
      ensures var w := old(View());
        View() == w.(inbox := W.Send(w.inbox, {s}, [W.Snapshot(others)]), synced := w.synced + {s})
    {
      Emit({s}, W.Snapshot(others));
      synced := synced + {s};
    }

    method AskCapabilities(room: RoomId, s: SocketId) returns (r: Result<Id>)
      requires Valid() && Inv(View().sfu) && s in users
      modifies sfuService.Repr
      ensures Valid() && fresh(sfuService.Repr - old(sfuService.Repr))
      ensures r.Ok? ==> ProducersOk(View().sfu)
      ensures var spec := GetRtpCapabilities(old(View()).sfu, Owner(room, s), users[s]);
        (r.Ok? <==> spec.Ok?) && View() == if r.Ok? then old(View()).(sfu := spec.value) else old(View())
    {
      r := sfuService.GetRtpCapabilities(room, s, users[s]);
      if r.Ok? {
        GetRtpCapabilitiesKeeps(old(View()).sfu, Owner(room, s), users[s]);
      }
    }

    method OnCreateTransport(s: SocketId, direction: Direction)
      requires Valid()
      modifies sfuService.Repr
      ensures Valid() && sfuService.Repr == old(sfuService.Repr)
      ensures View() == W.OnCreateTransport(old(View()), s, direction)
    {
      if s in data && data[s].Some? {
        var _ := sfuService.CreateTransport(Owner(data[s].value, s), direction);
      }
    }

    method OnProduce(s: SocketId, transport: Id, kind: Kind)
      requires Valid()
      modifies this`inbox, sfuService.Repr
      ensures Valid() && sfuService.Repr == old(sfuService.Repr)
      ensures View() == W.OnProduce(old(View()), s, transport, kind)
    {
      if s !in data || data[s].None? || s !in users {
        return;
      }
      ghost var w := View();
      var room := data[s].value;
      var producerId := StartProducing(Owner(room, s), transport, kind);
      if producerId.Ok? {
        SameAudience(w, View(), room, s);
        AnnounceNew(room, Entry(producerId.value, s, users[s], kind));
      }
    }

    method StartProducing(o: Owner, transport: Id, kind: Kind) returns (r: Result<Id>)
      requires Valid()
      modifies sfuService.Repr
      ensures Valid() && sfuService.Repr == old(sfuService.Repr)
      ensures var spec := Produce(old(View()).sfu, o, transport, kind);
        (r.Ok? <==> spec.Ok?) && View() == if r.Ok? then old(View()).(sfu := spec.value) else old(View())
      ensures r.Ok? ==> r.value == old(View()).sfu.media.nextId
    {
      r := sfuService.Produce(o, transport, kind);
    }

    method AnnounceNew(room: RoomId, entry: Entry)
      requires Valid()
      modifies this`inbox
      ensures Valid()
      ensures var w := old(View());
        View() == w.(inbox := W.Send(w.inbox, W.Audience(w, room, entry.socketId), [W.NewProducer(entry)]))
    {
      var to := Recipients(room, entry.socketId);
      Emit(to, W.NewProducer(entry));
    }

    method OnConsume(s: SocketId, producer: Id, compatible: bool)
      requires Valid()
      modifies sfuService.Repr
      ensures Valid() && sfuService.Repr == old(sfuService.Repr)
      ensures View() == W.OnConsume(old(View()), s, producer, compatible)
    {
      if s in data && data[s].Some? {
        var _ := sfuService.Consume(Owner(data[s].value, s), producer, compatible);
      }
    }

    method OnResumeConsumer(s: SocketId, consumer: Id)
      requires Valid() && ConsumersOk(View().sfu)
      modifies sfuService.Repr
      ensures Valid() && sfuService.Repr == old(sfuService.Repr)
      ensures View() == W.OnResumeConsumer(old(View()), s, consumer)
    {
      if s in data && data[s].Some? {
        var _ := sfuService.ResumeConsumer(Owner(data[s].value, s), consumer);
      }
    }

    // ---- roomEvents.js ----

    method OnJoin(s: SocketId, room: RoomId, dbOk: bool)
      requires Valid()
      modifies this`joined, this`data, this`synced, webrtcService
      ensures Valid()
      ensures View() == W.OnJoin(old(View()), s, room, dbOk)
    {
      if s !in data || s !in users || !dbOk {
        return;
      }
      EnterRoom(s, room);
      webrtcService.AddPeerToRoom(room, s, users[s]);
    }

    /** The socket joins the socket.io room and remembers it as its own. */
    method EnterRoom(s: SocketId, room: RoomId)
      requires Valid() && s in data
      modifies this`joined, this`data, this`synced
      ensures Valid()
      ensures var w := old(View());
        View() == w.(joined := w.joined + {W.Seat(room, s)}, data := w.data[s := Some(room)],
                     synced := if w.data[s] == Some(room) then w.synced else w.synced - {s})
    {
      joined, data, synced :=
        joined + {W.Seat(room, s)}, data[s := Some(room)], if data[s] == Some(room) then synced else synced - {s};
    }

    /** The socket leaves a socket.io room and forgets its own. */
    method ForgetRoom(s: SocketId, room: RoomId)
      requires Valid()
      modifies this`joined, this`data, this`synced
      ensures Valid()
      ensures var w := old(View());
        View() == w.(joined := w.joined - {W.Seat(room, s)}, data := w.data[s := None], synced := w.synced - {s})
    {
      joined, data, synced := joined - {W.Seat(room, s)}, data[s := None], synced - {s};
    }

    method RemoveFromPeerMap(s: SocketId, room: RoomId)
      requires Valid()
      modifies webrtcService
      ensures Valid()
      ensures View() == old(View()).(peers := PeerMap.RemovePeer(old(View()).peers, room, s))
    {
      webrtcService.RemovePeerFromRoom(room, s);
    }

    /** The room named in the payload, otherwise the socket's own. */
    method TargetOf(s: SocketId, target: Option<RoomId>) returns (r: Option<RoomId>)
      requires Valid()
      ensures r == W.Target(View(), s, target)
    {
      return if target.Some? then target else if s in data then data[s] else None;
    }

    method OnLeave(s: SocketId, target: Option<RoomId>, dbOk: bool)
      requires Valid() && ConsumersOk(View().sfu)
      modifies this`joined, this`data, this`synced, this`inbox, webrtcService, sfuService.Repr
      ensures Valid() && sfuService.Repr == old(sfuService.Repr)
      ensures View() == W.OnLeave(old(View()), s, target, dbOk)
    {
      var room := TargetOf(s, target);
      if room.None? || s !in data || !dbOk {
        return;
      }
      RemoveFromPeerMap(s, room.value);
      CleanupSfuPeer(s);
      ForgetRoom(s, room.value);
    }

    method OnKick(s: SocketId, target: Option<RoomId>, user: UserId, dbOk: bool)
      requires Valid()
      modifies this`joined, this`data, this`synced, webrtcService
      ensures Valid()
      ensures View() == W.OnKick(old(View()), s, target, user, dbOk)
    {
      var room := TargetOf(s, target);
      if room.None? || s !in data || !dbOk {
        return;
      }
      var socketIdsByUserId := webrtcService.GetSocketIdsByUserId(room.value);
      if user in socketIdsByUserId && socketIdsByUserId[user] in data {
        var victim := socketIdsByUserId[user];
        RemoveFromPeerMap(victim, room.value);
        ForgetRoom(victim, room.value);
      }
    }

    /** A chat message or a reaction; `relayed` if the limiter let it pass and there is something to relay. */
    method OnPost(s: SocketId, target: Option<RoomId>, kind: RateLimiter.PostKind, valid: bool, blank: bool,
                  now: RateLimiter.Time)
      returns (relayed: bool)
      requires Valid()
      modifies limiter
      ensures Valid()
      ensures View() == W.OnPost(old(View()), s, target, kind, valid, now)
      ensures relayed == W.RelaysPost(old(View()), s, target, kind, valid, blank, now)
    {
      var room := TargetOf(s, target);
      if room.None? || !valid || s !in data || data[s] != room {
        return false;
      }
      var limited := AskLimiter(s, kind, now);
      return !limited && !(kind.Chat? && blank);
    }

    method AskLimiter(s: SocketId, kind: RateLimiter.PostKind, now: RateLimiter.Time) returns (limited: bool)
      requires Valid()
      modifies limiter
      ensures Valid()
      ensures var w, key := old(View()), RateLimiter.Key(s, kind);
        View() == w.(rates := RateLimiter.Apply(w.rates, RateLimiter.Request(key, now))) &&
        limited == RateLimiter.Limited(RateLimiter.Lookup(w.rates, key), RateLimiter.MaxOf(kind), RateLimiter.WindowOf(kind), now)
    {
      limited := limiter.IsRateLimited(RateLimiter.Key(s, kind), RateLimiter.MaxOf(kind), RateLimiter.WindowOf(kind), now);
    }

    // ---- presenceEvents.js ----

    method OnConnect(s: SocketId, user: UserId)
      requires Valid()
      modifies this`users, this`data, this`inbox, this`views
      ensures Valid()
      ensures View() == W.OnConnect(old(View()), s, user)
    {
      if s in users {
        return;
      }
      users, data, inbox, views := users[s := user], data[s := None], inbox[s := []], views[s := {}];
    }

    method OnDisconnect(s: SocketId)
      requires Valid() && ConsumersOk(View().sfu)
      modifies this`joined, this`data, this`inbox, this`views, this`synced, webrtcService, limiter, sfuService.Repr
      ensures Valid() && sfuService.Repr == old(sfuService.Repr)
      ensures View() == W.OnDisconnect(old(View()), s)
    {
      if s !in data {
        return;
      }
      ClearRates(s);
      if data[s].Some? {
        RemoveFromPeerMap(s, data[s].value);
        CleanupSfuPeer(s);
      }
      DropSocket(s);
      DropQueue(s);
    }

    method ClearRates(s: SocketId)
      requires Valid()
      modifies limiter
      ensures Valid()
      ensures View() == old(View()).(
        rates := old(View()).rates - {RateLimiter.Key(s, RateLimiter.Chat), RateLimiter.Key(s, RateLimiter.Reaction)})
    {
      limiter.ClearRateLimitState(s);
    }

    /** What socket.io itself forgets about a closed socket. */
    method DropSocket(s: SocketId)
      requires Valid()
      modifies this`joined, this`data, this`synced
      ensures Valid()
      ensures var w := old(View());
        View() == w.(joined := LeftAll(w.joined, s), data := w.data - {s}, synced := w.synced - {s})
    {
      joined, data, synced := LeftAll(joined, s), data - {s}, synced - {s};
    }

    method DropQueue(s: SocketId)
      requires Valid()
      modifies this`inbox, this`views
      ensures Valid()
      ensures var w := old(View());
        View() == w.(inbox := w.inbox - {s}, views := w.views - {s})
    {
      inbox, views := inbox - {s}, views - {s};
    }

    // ---- signalingEvents.js ----

    method OnRelay(s: SocketId, room: RoomId, to: SocketId)
      requires Valid()
      modifies this`inbox
      ensures Valid()
      ensures View() == W.OnRelay(old(View()), s, room, to)
    {
      if s !in data || s !in users {
        return;
      }
      if PeerMap.IsPeer(webrtcService.inMemoryRoomPeers, room, s) && PeerMap.IsPeer(webrtcService.inMemoryRoomPeers, room, to) {
        Emit({to}, W.Signal(room, s, users[s]));
      }
    }

    // ---- any of them ----

    /** What the event loop does with one action, mediasoup's notification and the client's reading of its
        messages included. */
    method Handle(a: W.Action)
      requires Valid() && SfuLinked(View())
      modifies this, webrtcService, limiter, sfuService.Repr
      ensures Valid() && fresh(sfuService.Repr - old(sfuService.Repr))
      ensures View() == W.Step(old(View()), a) && SfuLinked(View())
    {
      ghost var w := View();
      if W.SfuAction(a) {
        HandleSfu(a);
      } else {
        HandleRoom(a);
      }
      StepKeepsLinked(w, a);
    }

    method HandleRoom(a: W.Action)
      requires Valid() && ConsumersOk(View().sfu) && !W.SfuAction(a)
      modifies this, webrtcService, limiter, sfuService.Repr
      ensures Valid() && sfuService.Repr == old(sfuService.Repr)
      ensures View() == W.Step(old(View()), a)
    {
      match a {
        case Connect(s, user) => OnConnect(s, user);
        case Join(s, room, dbOk) => OnJoin(s, room, dbOk);
        case Leave(s, target, dbOk) => OnLeave(s, target, dbOk);
        case Disconnect(s) => OnDisconnect(s);
        case Kick(s, target, user, dbOk) => OnKick(s, target, user, dbOk);
        case Post(s, target, kind, valid, blank, now) => var _ := OnPost(s, target, kind, valid, blank, now);
        case Relay(s, room, to) => OnRelay(s, room, to);
        case Receive(s) => OnReceive(s);
      }
    }

    method HandleSfu(a: W.Action)
      requires Valid() && Inv(View().sfu) && W.SfuAction(a)
      modifies this, sfuService.Repr
      ensures Valid() && fresh(sfuService.Repr - old(sfuService.Repr))
      ensures View() == W.Step(old(View()), a)
    {
      match a {
        case GetCapabilities(s) => OnGetCapabilities(s);
        case NewTransport(s, direction) => OnCreateTransport(s, direction);
        case StartProducing(s, transport, kind) => OnProduce(s, transport, kind);
        case StartConsuming(s, producer, compatible) => OnConsume(s, producer, compatible);
        case Resume(s, consumer) => OnResumeConsumer(s, consumer);
        case ProducerCloseArrives(consumer) => OnProducerClose(consumer);
      }
    }

    method OnProducerClose(consumer: Id)
      requires Valid()
      modifies sfuService.Repr
      ensures Valid() && sfuService.Repr == old(sfuService.Repr)
      ensures View() == W.OnProducerClose(old(View()), consumer)
    {
      sfuService.DeliverProducerClose(consumer);
    }

    method OnReceive(s: SocketId)
      requires Valid()
      modifies this`inbox, this`views
      ensures Valid()
      ensures View() == W.OnReceive(old(View()), s)
    {
      if s in inbox && inbox[s] != [] && s in views {
        views, inbox := views[s := W.Watch1(views[s], inbox[s][0])], inbox[s := inbox[s][1..]];
      }
    }

    /** From a fresh start, the server is always in the state that the run of its actions says. */
    method Serve(actions: seq<W.Action>)
      requires Valid() && View() == StateAfter(sfuService.workers, [])
      modifies this, webrtcService, limiter, sfuService.Repr
      ensures Valid() && View() == StateAfter(old(sfuService.workers), actions)
    {
      ghost var workers := sfuService.workers;
      var i := 0;
      PlayNothing(workers);
      assert actions[..0] == [];
      while i < |actions|
        invariant i <= |actions| && Valid() && SfuLinked(View())
        invariant fresh(sfuService.Repr - old(sfuService.Repr))
        invariant View() == StateAfter(workers, actions[..i])
      {
        HandleNth(workers, actions, i);
        i := i + 1;
      }
      assert actions[..i] == actions;
    }

    method HandleNth(ghost workers: seq<nat>, actions: seq<W.Action>, i: nat)
      requires i < |actions| && Valid() && SfuLinked(View()) && View() == StateAfter(workers, actions[..i])
      modifies this, webrtcService, limiter, sfuService.Repr
      ensures Valid() && SfuLinked(View()) && fresh(sfuService.Repr - old(sfuService.Repr))
      ensures View() == StateAfter(workers, actions[..i + 1])
    {
      PlayOneMore(workers, actions, i);
      Handle(actions[i]);
    }
  }

  function LeftAll(joined: set<W.Seat>, s: SocketId): set<W.Seat> {
    set x | x in joined && x.socket != s
  }

  /** Where the run of `actions` ends. */
  function StateAfter(workers: seq<nat>, actions: seq<W.Action>): W.World {
    W.Play(workers, actions).states[|actions|]
  }

  lemma PlayNothing(workers: seq<nat>)
    ensures StateAfter(workers, []) == W.Initial(workers)
    ensures SfuLinked(StateAfter(workers, []))
  {
  }

  lemma PlayOneMore(workers: seq<nat>, actions: seq<W.Action>, i: nat)
    requires i < |actions|
    ensures StateAfter(workers, actions[..i + 1]) == W.Step(StateAfter(workers, actions[..i]), actions[i])
  {
    assert actions[..i + 1][..i] == actions[..i];
    var before := W.Play(workers, actions[..i]);
    assert W.Play(workers, actions[..i + 1]).states == before.states + [W.Step(before.states[i], actions[i])];
  }

  lemma SameAudience(w: W.World, w': W.World, room: RoomId, except: SocketId)
    requires w'.inbox == w.inbox && w'.joined == w.joined
    ensures W.Audience(w', room, except) == W.Audience(w, room, except)
  {
  }

  lemma SendNothing(inbox: map<SocketId, seq<W.Msg>>, to: set<SocketId>)
    ensures W.Send(inbox, to, []) == inbox
  {
    assert forall s :: s in inbox ==> inbox[s] + [] == inbox[s];
  }

  lemma SendOneMore(inbox: map<SocketId, seq<W.Msg>>, to: set<SocketId>, ms: seq<W.Msg>, m: W.Msg)
    ensures W.Send(W.Send(inbox, to, ms), to, [m]) == W.Send(inbox, to, ms + [m])
  {
    forall s | s in inbox ensures W.Send(W.Send(inbox, to, ms), to, [m])[s] == W.Send(inbox, to, ms + [m])[s] {
      assert inbox[s] + ms + [m] == inbox[s] + (ms + [m]);
    }
  }
}
