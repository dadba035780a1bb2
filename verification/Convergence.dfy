/** Every client's view converges to the producers it can consume. */
module Convergence {
  import opened Ids
  import opened JsMaps
  import opened SfuCalls
  import opened SfuModel
  import opened SfuResults
  import opened World
  import opened Lifecycle
  import PeerMap

  // ---- what a client makes of its messages ----

  lemma {:induction false} WatchAppend(view: set<Entry>, a: seq<Msg>, b: seq<Msg>)
    ensures Watch(view, a + b) == Watch(Watch(view, a), b)
    decreases |a|
  {
    if a == [] {
      assert a + b == b;
    } else {
      assert (a + b)[1..] == a[1..] + b;
      WatchAppend(Watch1(view, a[0]), a[1..], b);
    }
  }

  lemma {:induction false} WatchClosed(view: set<Entry>, ids: seq<Id>, s: SocketId)
    ensures Watch(view, ClosedMsgs(ids, s)) == set e | e in view && e.producerId !in ids
    decreases |ids|
  {
    if ids == [] {
      assert (set e | e in view && e.producerId !in ids) == view;
    } else {
      var rest := set e | e in view && e.producerId != ids[0];
      assert ClosedMsgs(ids, s)[1..] == ClosedMsgs(ids[1..], s);
      WatchClosed(rest, ids[1..], s);
      assert ids == [ids[0]] + ids[1..];
      assert forall e :: e in (set e | e in rest && e.producerId !in ids[1..]) <==> e in view && e.producerId !in ids;
    }
  }

  lemma WatchOne(view: set<Entry>, m: Msg)
    ensures Watch(view, [m]) == Watch1(view, m)
  {
    assert [m][1..] == [];
  }

  // ---- the invariant ----

  ghost predicate UsersLinked(w: World) {
    forall o :: o in w.sfu.peers ==> o.socket in w.users && w.sfu.peers[o].userId == w.users[o.socket]
  }

  ghost predicate SfuLinked(w: World) {
    Inv(w.sfu) && UsersLinked(w)
  }

  /** What client `x` will believe once it has received everything sent to it. */
  ghost function Believes(w: World, x: SocketId): set<Entry>
    requires x in w.views && x in w.inbox
  {
    Watch(w.views[x], w.inbox[x])
  }

  ghost predicate ConvergedAt(w: World, x: SocketId)
    requires ProducersOk(w.sfu)
  {
    x in w.views && x in w.inbox && RoomOf(w, x).Some? &&
    Believes(w, x) == Others(w.sfu, RoomOf(w, x).value, x)
  }

  ghost predicate Converged(w: World)
    requires ProducersOk(w.sfu)
  {
    forall x :: x in w.synced ==> ConvergedAt(w, x)
  }

  // ---- the SFU side of each step ----

  lemma StepKeepsUsersLinked(w: World, a: Action)
    requires PeersOk(w.sfu) && UsersLinked(w)
    ensures UsersLinked(Step(w, a))
  {
    StepCalls(w, a);
    forall o | o in Step(w, a).sfu.peers
      ensures o.socket in Step(w, a).users && Step(w, a).sfu.peers[o].userId == Step(w, a).users[o.socket]
    {
      PeersAfter(w.sfu, CallOf(w, a), o);
      UsersGrow(w, a, o.socket);
    }
  }

  /** The SFU invariant needs no discipline: it survives every step. */
  lemma StepKeepsInv(w: World, a: Action)
    requires Inv(w.sfu)
    ensures Inv(Step(w, a).sfu)
  {
    StepCalls(w, a);
    ApplyKeepsInv(w.sfu, CallOf(w, a));
  }

  lemma StepKeepsLinked(w: World, a: Action)
    requires SfuLinked(w)
    ensures SfuLinked(Step(w, a))
  {
    StepKeepsInv(w, a);
    StepKeepsUsersLinked(w, a);
  }

  // ---- the views ----

  lemma CleanupConverges(w: World, s: SocketId, x: SocketId)
    requires PeersOk(w.sfu) && TransportsOk(w.sfu) && ProducersOk(w.sfu) && ConsumersOk(w.sfu)
    requires SeatsAgree(w) && ConvergedAt(w, x) && x != s && ProducersOk(CleanupSfuPeer(w, s).sfu)
    ensures ConvergedAt(CleanupSfuPeer(w, s), x)
  {
    if RoomOf(w, s).Some? {
      var room := RoomOf(w, s).value;
      var ids := ListOwnProducerIds(w.sfu, Owner(room, s));
      OthersAfterRemove(w.sfu, Owner(room, s), RoomOf(w, x).value, x);
      if RoomOf(w, x) == Some(room) {
        assert Seat(room, x) in w.joined;
        WatchAppend(w.views[x], w.inbox[x], ClosedMsgs(ids, s));
        WatchClosed(Believes(w, x), ids, s);
      } else {
        assert Seat(room, x) !in w.joined;
      }
    }
  }

  lemma LeaveConverges(w: World, s: SocketId, target: Option<RoomId>, dbOk: bool, x: SocketId)
    requires PeersOk(w.sfu) && TransportsOk(w.sfu) && ProducersOk(w.sfu) && ConsumersOk(w.sfu)
    requires SeatsAgree(w) && ConvergedAt(w, x) && x != s && ProducersOk(OnLeave(w, s, target, dbOk).sfu)
    ensures ConvergedAt(OnLeave(w, s, target, dbOk), x)
  {
    if Target(w, s, target).Some? && s in w.data && dbOk {
      var w0 := w.(peers := PeerMap.RemovePeer(w.peers, Target(w, s, target).value, s));
      CleanupConverges(w0, s, x);
    }
  }

  lemma DisconnectConverges(w: World, s: SocketId, x: SocketId)
    requires PeersOk(w.sfu) && TransportsOk(w.sfu) && ProducersOk(w.sfu) && ConsumersOk(w.sfu)
    requires SeatsAgree(w) && ConvergedAt(w, x) && x != s && ProducersOk(OnDisconnect(w, s).sfu)
    ensures ConvergedAt(OnDisconnect(w, s), x)
  {
    if RoomOf(w, s).Some? {
      CleanupConverges(w, s, x);
    }
  }

  lemma ProduceConverges(w: World, s: SocketId, transport: Id, kind: Kind, x: SocketId)
    requires ProducersOk(w.sfu) && IdsOk(w.sfu) && UsersLinked(w) && SeatsAgree(w) && ConvergedAt(w, x)
    requires ProducersOk(OnProduce(w, s, transport, kind).sfu)
    ensures ConvergedAt(OnProduce(w, s, transport, kind), x)
  {
    if RoomOf(w, s).Some? && s in w.users {
      var o := Owner(RoomOf(w, s).value, s);
      if Produce(w.sfu, o, transport, kind).Ok? {
        var entry := Entry(w.sfu.media.nextId, s, w.users[s], kind);
        OthersAfterProduce(w.sfu, o, transport, kind, RoomOf(w, x).value, x);
        if RoomOf(w, x) == RoomOf(w, s) && x != s {
          assert Seat(o.call, x) in w.joined;
          WatchAppend(w.views[x], w.inbox[x], [NewProducer(entry)]);
          WatchOne(Believes(w, x), NewProducer(entry));
        } else {
          assert x != s ==> Seat(o.call, x) !in w.joined;
        }
      }
    }
  }

  lemma SnapshotConverges(w: World, s: SocketId)
    requires Wellformed(w) && Inv(OnGetCapabilities(w, s).sfu)
    requires RoomOf(w, s).Some? && GetRtpCapabilities(w.sfu, Owner(RoomOf(w, s).value, s), w.users[s]).Ok?
    ensures ConvergedAt(OnGetCapabilities(w, s), s)
  {
    var w', room := OnGetCapabilities(w, s), RoomOf(w, s).value;
    var list := ListOtherProducers(w'.sfu, room, s);
    ListedAreOthers(w'.sfu, room, s);
    WatchAppend(w.views[s], w.inbox[s], [Snapshot(list)]);
    WatchOne(Believes(w, s), Snapshot(list));
  }

  lemma QuietConverges(w: World, w': World, x: SocketId)
    requires ProducersOk(w.sfu) && ProducersOk(w'.sfu) && ConvergedAt(w, x) && Quiet(w.sfu, w'.sfu)
    requires w'.data == w.data && w'.views == w.views && x in w'.inbox && w'.inbox[x] == w.inbox[x]
    ensures ConvergedAt(w', x)
  {
    OthersFrame(w.sfu, w'.sfu);
  }

  /** Only `sfu:produce` and a peer's removal change the producers. */
  lemma HandlerIsQuiet(w: World, a: Action)
    requires SfuAction(a) && !a.StartProducing?
    ensures Quiet(w.sfu, Step(w, a).sfu)
  {
    StepCalls(w, a);
    ApplyIsQuiet(w.sfu, CallOf(w, a));
  }

  lemma AnswerGoesToCaller(w: World, s: SocketId, x: SocketId)
    requires x in w.inbox && x != s
    ensures var w' := OnGetCapabilities(w, s);
      w'.data == w.data && w'.views == w.views && x in w'.inbox && w'.inbox[x] == w.inbox[x]
  {
  }

  lemma ReceiveConverges(w: World, s: SocketId, x: SocketId)
    requires ProducersOk(w.sfu) && ConvergedAt(w, x)
    ensures ConvergedAt(OnReceive(w, s), x)
  {
  }

  lemma RelayConverges(w: World, s: SocketId, room: RoomId, to: SocketId, x: SocketId)
    requires ProducersOk(w.sfu) && ConvergedAt(w, x)
    ensures ConvergedAt(OnRelay(w, s, room, to), x)
  {
    if s in w.users {
      WatchAppend(w.views[x], w.inbox[x], [Signal(room, s, w.users[s])]);
      WatchOne(Believes(w, x), Signal(room, s, w.users[s]));
    }
  }

  lemma TableStepConverges(w: World, a: Action, x: SocketId)
    requires ProducersOk(w.sfu) && Wellformed(w) && ConvergedAt(w, x) && x in Step(w, a).synced && x in w.synced
    requires a.Connect? || a.Join? || a.Kick? || a.Post?
    ensures Step(w, a).sfu == w.sfu && ConvergedAt(Step(w, a), x)
  {
  }

  lemma HandlerConverges(w: World, a: Action, x: SocketId)
    requires SfuAction(a) && !a.StartProducing? && !(a.GetCapabilities? && a.socket == x)
    requires ProducersOk(w.sfu) && ProducersOk(Step(w, a).sfu) && ConvergedAt(w, x)
    ensures ConvergedAt(Step(w, a), x)
  {
    HandlerIsQuiet(w, a);
    if a.GetCapabilities? {
      AnswerGoesToCaller(w, a.socket, x);
    } else {
      SilentTouchesSfu(w, a);
    }
    QuietConverges(w, Step(w, a), x);
  }

  lemma CallerConverges(w: World, x: SocketId)
    requires Wellformed(w) && ProducersOk(w.sfu) && Inv(OnGetCapabilities(w, x).sfu)
    requires x in OnGetCapabilities(w, x).synced && (x in w.synced ==> ConvergedAt(w, x))
    ensures ConvergedAt(OnGetCapabilities(w, x), x)
  {
    if RoomOf(w, x).Some? && GetRtpCapabilities(w.sfu, Owner(RoomOf(w, x).value, x), w.users[x]).Ok? {
      SnapshotConverges(w, x);
    }
  }

  lemma SfuStepKeepsConvergedAt(w: World, a: Action, x: SocketId)
    requires Agree(w) && SfuLinked(w) && Inv(Step(w, a).sfu)
    requires x in Step(w, a).synced && (x in w.synced ==> ConvergedAt(w, x))
    requires SfuAction(a)
    ensures ConvergedAt(Step(w, a), x)
  {
    if a.StartProducing? {
      ProduceKeepsSynced(w, a, x);
      ProduceConverges(w, a.socket, a.transport, a.media, x);
    } else if a == GetCapabilities(x) {
      CallerConverges(w, x);
    } else {
      SyncedByCaller(w, a, x);
      HandlerConverges(w, a, x);
    }
  }

  lemma ProduceKeepsSynced(w: World, a: Action, x: SocketId)
    requires a.StartProducing?
    ensures Step(w, a).synced == w.synced
  {
  }

  lemma SyncedByCaller(w: World, a: Action, x: SocketId)
    requires SfuAction(a) && a != GetCapabilities(x) && x in Step(w, a).synced
    ensures x in w.synced
  {
  }

  lemma RoomStepKeepsConvergedAt(w: World, a: Action, x: SocketId)
    requires PeersOk(w.sfu) && TransportsOk(w.sfu) && ProducersOk(w.sfu) && ConsumersOk(w.sfu)
    requires Wellformed(w) && SeatsAgree(w) && ProducersOk(Step(w, a).sfu)
    requires x in Step(w, a).synced && (x in w.synced ==> ConvergedAt(w, x))
    requires !SfuAction(a)
    ensures ConvergedAt(Step(w, a), x)
  {
    match a
    case Receive(s) => ReceiveConverges(w, s, x);
    case Relay(s, room, to) => RelayConverges(w, s, room, to, x);
    case Leave(s, target, dbOk) => if x != s { LeaveConverges(w, s, target, dbOk, x); }
    case Disconnect(s) => if x != s { DisconnectConverges(w, s, x); }
    case _ => TableStepConverges(w, a, x);
  }

  lemma StepKeepsConverged(w: World, a: Action)
    requires Agree(w) && SfuLinked(w) && Converged(w)
    ensures SfuLinked(Step(w, a)) && Converged(Step(w, a))
  {
    StepKeepsLinked(w, a);
    forall x | x in Step(w, a).synced ensures ConvergedAt(Step(w, a), x) {
      if SfuAction(a) {
        SfuStepKeepsConvergedAt(w, a, x);
      } else {
        RoomStepKeepsConvergedAt(w, a, x);
      }
    }
  }
}
