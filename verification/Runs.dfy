/** The socket layer over whole runs. */
module Runs {
  import opened Ids
  import opened JsMaps
  import opened SfuCalls
  import opened SfuModel
  import opened SfuResults
  import opened World
  import opened Lifecycle
  import opened Convergence
  import PeerMap

  lemma StartsLinked(h: History)
    requires IsRun(h)
    ensures SfuLinked(h.states[0])
  {
  }

  lemma NextLinked(h: History, n: nat)
    requires IsRun(h) && n < |h.actions| && SfuLinked(h.states[n])
    ensures SfuLinked(h.states[n + 1])
  {
    StepKeepsLinked(h.states[n], h.actions[n]);
  }

  /** In every run, disciplined or not, the SFU's resources are accounted for. */
  lemma {:induction false} SfuInEveryRun(h: History, n: nat)
    requires IsRun(h) && n <= |h.actions|
    ensures SfuLinked(h.states[n])
  {
    if n == 0 {
      StartsLinked(h);
    } else {
      SfuInEveryRun(h, n - 1);
      NextLinked(h, n - 1);
    }
  }

  /** In every disciplined run the membership tables agree and the synced clients converge. */
  lemma {:induction false} DisciplinedRunsAgree(h: History, n: nat)
    requires DisciplinedRun(h) && n <= |h.actions|
    ensures Agree(h.states[n]) && SfuLinked(h.states[n]) && Converged(h.states[n])
  {
    if n > 0 {
      DisciplinedRunsAgree(h, n - 1);
      StepKeepsAgree(h.states[n - 1], h.actions[n - 1]);
      StepKeepsConverged(h.states[n - 1], h.actions[n - 1]);
    }
  }

  lemma StepDisagrees(w: World, a: Action)
    requires Agree(w) && !Disciplined(w, a)
    ensures !TablesAgree(Step(w, a))
  {
    match a
    case Join(s, room, dbOk) => JoinAgreesIff(w, s, room, dbOk);
    case Leave(s, target, dbOk) => LeaveAgreesIff(w, s, target, dbOk);
  }

  lemma {:induction false} AgreeingRunIsDisciplined(h: History, n: nat)
    requires IsRun(h) && n <= |h.actions| && forall i :: 0 <= i <= n ==> TablesAgree(h.states[i])
    ensures Agree(h.states[n]) && forall i :: 0 <= i < n ==> Disciplined(h.states[i], h.actions[i])
  {
    if n > 0 {
      AgreeingRunIsDisciplined(h, n - 1);
      NextAgrees(h, n - 1);
    }
  }

  lemma NextAgrees(h: History, n: nat)
    requires IsRun(h) && n < |h.actions| && Agree(h.states[n]) && TablesAgree(h.states[n + 1])
    ensures Disciplined(h.states[n], h.actions[n]) && Agree(h.states[n + 1])
  {
    assert h.states[n + 1] == Step(h.states[n], h.actions[n]);
    if Disciplined(h.states[n], h.actions[n]) {
      StepKeepsAgree(h.states[n], h.actions[n]);
    } else {
      StepDisagrees(h.states[n], h.actions[n]);
    }
  }

  /** The membership tables agree at every moment of a run if and only if the run is disciplined. */
  lemma DisciplinedIffAgreeing(h: History)
    requires IsRun(h)
    ensures DisciplinedRun(h) <==> forall n :: 0 <= n <= |h.actions| ==> TablesAgree(h.states[n])
  {
    if DisciplinedRun(h) {
      forall n | 0 <= n <= |h.actions| ensures TablesAgree(h.states[n]) {
        DisciplinedRunsAgree(h, n);
      }
    }
    if forall n :: 0 <= n <= |h.actions| ==> TablesAgree(h.states[n]) {
      AgreeingRunIsDisciplined(h, |h.actions|);
    }
  }

  // ---- producer views ----

  /** Before the `n`-th action, `x` has been in one room since its get-rtp-capabilities at `i`. */
  ghost predicate SyncedSince(h: History, n: nat, x: SocketId, i: nat)
    requires IsRun(h) && n <= |h.actions|
  {
    i < n && h.actions[i] == GetCapabilities(x) && RoomOf(h.states[n], x).Some? &&
    forall j :: i <= j < n ==> RoomOf(h.states[j], x) == RoomOf(h.states[n], x)
  }

  lemma SyncedStays(w: World, a: Action, x: SocketId)
    requires x in w.synced && RoomOf(Step(w, a), x) == RoomOf(w, x) && RoomOf(w, x).Some?
    ensures x in Step(w, a).synced
  {
  }

  lemma SnapshotSyncs(w: World, x: SocketId)
    requires Wellformed(w) && Inv(w.sfu) && w.sfu.workers != [] && RoomOf(w, x).Some?
    ensures x in OnGetCapabilities(w, x).synced
  {
  }

  lemma StepKeepsWorkers(w: World, a: Action)
    ensures Step(w, a).sfu.workers == w.sfu.workers
  {
    StepCalls(w, a);
    ApplyKeepsWorkers(w.sfu, CallOf(w, a));
  }

  lemma {:induction false} WorkersStay(h: History, n: nat)
    requires IsRun(h) && n <= |h.actions|
    ensures h.states[n].sfu.workers == h.workers
  {
    if n > 0 {
      WorkersStay(h, n - 1);
      StepKeepsWorkers(h.states[n - 1], h.actions[n - 1]);
    }
  }

  lemma {:induction false} SyncedByHistory(h: History, n: nat, x: SocketId, i: nat)
    requires DisciplinedRun(h) && n <= |h.actions| && h.workers != [] && SyncedSince(h, n, x, i)
    ensures x in h.states[n].synced
  {
    if i < n - 1 {
      SyncedByHistory(h, n - 1, x, i);
      SyncedStays(h.states[n - 1], h.actions[n - 1], x);
    } else {
      WorkersStay(h, i);
      DisciplinedRunsAgree(h, i);
      SnapshotSyncs(h.states[i], x);
      assert h.states[n] == Step(h.states[i], h.actions[i]);
    }
  }

  /** Producer-view convergence. In a disciplined run, whoever has asked for capabilities since it
      entered its room will, once it has received what was sent to it, believe exactly what
      `listOtherProducers` would answer now. */
  lemma ViewsConverge(h: History, n: nat, x: SocketId, i: nat)
    requires DisciplinedRun(h) && n <= |h.actions| && h.workers != [] && SyncedSince(h, n, x, i)
    ensures var w := h.states[n];
      x in w.views && x in w.inbox &&
      forall e :: e in Watch(w.views[x], w.inbox[x]) <==> e in ListOtherProducers(w.sfu, RoomOf(w, x).value, x)
  {
    DisciplinedRunsAgree(h, n);
    SyncedByHistory(h, n, x, i);
    assert ConvergedAt(h.states[n], x);
    ListedAreOthers(h.states[n].sfu, RoomOf(h.states[n], x).value, x);
  }

  // ---- what a kick leaves behind ----

  /** SFU peers whose socket is no longer in that room. */
  ghost predicate Stranded(w: World, o: Owner) {
    o in w.sfu.peers && RoomOf(w, o.socket) != Some(o.call)
  }

  /** The socket a kick evicts. */
  function Victim(w: World, a: Action): Option<Owner> {
    if !a.Kick? || !a.dbOk || a.socket !in w.data || Target(w, a.socket, a.target).None? then None
    else
      var room := Target(w, a.socket, a.target).value;
      match PeerMap.SocketOfUser(w.peers, room, a.user)
      case None => None
      case Some(s) => if s in w.data then Some(Owner(room, s)) else None
  }

  /** The rooms a step takes sockets out of: the leaver's, the disconnecting socket's, the victim's. */
  predicate Departs(w: World, a: Action, s: SocketId) {
    match a
    case Leave(x, target, dbOk) => x == s && dbOk && s in w.data && Target(w, s, target).Some?
    case Disconnect(x) => x == s && s in w.data
    case _ => Victim(w, a).Some? && Victim(w, a).value.socket == s
  }

  lemma RoomAfterKick(w: World, a: Action, s: SocketId)
    requires Wellformed(w) && a.Kick?
    ensures RoomOf(Step(w, a), s) == if Departs(w, a, s) then None else RoomOf(w, s)
  {
  }

  lemma RoomAfterSfuStep(w: World, a: Action, s: SocketId)
    requires SfuAction(a)
    ensures Step(w, a).data == w.data
  {
  }

  lemma RoomAfter(w: World, a: Action, s: SocketId)
    requires Wellformed(w)
    ensures RoomOf(Step(w, a), s) ==
      if Departs(w, a, s) then None
      else if a.Join? && a.socket == s && a.dbOk && s in w.data then Some(a.room)
      else RoomOf(w, s)
  {
    if a.Kick? {
      RoomAfterKick(w, a, s);
    } else if SfuAction(a) {
      RoomAfterSfuStep(w, a, s);
    } else if a.Leave? || a.Disconnect? {
      RoomAfterDeparture(w, a, s);
    }
  }

  lemma RoomAfterDeparture(w: World, a: Action, s: SocketId)
    requires a.Leave? || a.Disconnect?
    ensures RoomOf(Step(w, a), s) == if Departs(w, a, s) then None else RoomOf(w, s)
  {
  }

  /** An SFU peer comes when its socket asks in its room, and goes when its socket leaves it otherwise
      than by a kick. */
  lemma SfuPeersAfter(w: World, a: Action, o: Owner)
    requires PeersOk(w.sfu)
    ensures o in w.sfu.peers ==>
      (o in Step(w, a).sfu.peers <==>
         !(!a.Kick? && Departs(w, a, o.socket) && RoomOf(w, o.socket) == Some(o.call)))
    ensures o in Step(w, a).sfu.peers && o !in w.sfu.peers ==> a == GetCapabilities(o.socket) && RoomOf(w, o.socket) == Some(o.call)
  {
    StepCalls(w, a);
    PeersAfter(w.sfu, CallOf(w, a), o);
  }

  /** `o`'s socket joins its room again. */
  predicate Rejoins(w: World, a: Action, o: Owner) {
    a == Join(o.socket, o.call, true) && o.socket in w.data
  }

  /** A step strands a peer exactly when it kicks a socket that has one, and recovers it exactly
      when the socket joins that room again. */
  lemma StrandedExactly(w: World, a: Action, o: Owner)
    requires Agree(w) && SfuLinked(w) && Disciplined(w, a)
    ensures Stranded(Step(w, a), o) <==>
      (o in w.sfu.peers && Victim(w, a) == Some(o)) ||
      (Stranded(w, o) && !Rejoins(w, a, o))
  {
    RoomAfter(w, a, o.socket);
    SfuPeersAfter(w, a, o);
    if a.Kick? && Target(w, a.socket, a.target).Some? {
      PeerMap.SocketOfUserIsPeer(w.peers, Target(w, a.socket, a.target).value, a.user);
    }
  }

  ghost predicate StrandedAndGone(w: World, o: Owner) {
    o in w.sfu.peers && o.socket in w.users && o.socket !in w.data
  }

  lemma GoneSocketStaysGone(w: World, a: Action, o: Owner)
    requires PeersOk(w.sfu) && StrandedAndGone(w, o)
    ensures StrandedAndGone(Step(w, a), o)
  {
    SfuPeersAfter(w, a, o);
    SocketsStayGone(w, a, o.socket);
  }

  lemma SocketsStayGone(w: World, a: Action, s: SocketId)
    requires s in w.users && s !in w.data
    ensures s in Step(w, a).users && s !in Step(w, a).data
  {
  }

  lemma NextGone(h: History, n: nat, o: Owner)
    requires IsRun(h) && n < |h.actions| && PeersOk(h.states[n].sfu) && StrandedAndGone(h.states[n], o)
    ensures StrandedAndGone(h.states[n + 1], o)
  {
    GoneSocketStaysGone(h.states[n], h.actions[n], o);
  }

  /** A stranded peer whose socket has gone is never removed: its router stays open for good. */
  lemma {:induction false} StrandedForGood(h: History, n: nat, m: nat, o: Owner)
    requires IsRun(h) && n <= m <= |h.actions| && StrandedAndGone(h.states[n], o)
    ensures StrandedAndGone(h.states[m], o)
    ensures var s := h.states[m].sfu; o.call in s.calls && s.calls[o.call].router in s.media.routers
    decreases m
  {
    SfuInEveryRun(h, m);
    if n < m {
      StrandedForGood(h, n, m - 1, o);
      SfuInEveryRun(h, m - 1);
      NextGone(h, m - 1, o);
    }
  }
}
