/** Which of a user's sockets `getSocketIdsByUserId` gives, in terms of who joined and left. */
module LastEntered {
  import opened Ids
  import opened JsMaps
  import opened PeerMap

  // ---- when a socket entered a room ----

  predicate Adds(step: MirrorStep, room: RoomId, s: SocketId) {
    step.Add? && step.room == room && step.socket == s
  }

  predicate Removes(step: MirrorStep, room: RoomId, s: SocketId) {
    step.Remove? && step.room == room && step.socket == s
  }

  /** The `i`-th step is `s`'s first join of the room since it was last removed from it; it has not
      been removed since. */
  ghost predicate EntersAt(steps: seq<MirrorStep>, room: RoomId, s: SocketId, i: nat) {
    i < |steps| && Adds(steps[i], room, s) &&
    (forall k :: i < k < |steps| ==> !Removes(steps[k], room, s)) &&
    (forall k :: 0 <= k < i && Adds(steps[k], room, s) ==> RemovedBetween(steps, room, s, k, i))
  }

  ghost predicate RemovedBetween(steps: seq<MirrorStep>, room: RoomId, s: SocketId, from: nat, to: nat)
    requires to <= |steps|
  {
    exists j :: from < j < to && Removes(steps[j], room, s)
  }

  /** The same, one step at a time. */
  function Entry(steps: seq<MirrorStep>, room: RoomId, s: SocketId): (r: Option<nat>)
    ensures r.Some? ==> r.value < |steps|
  {
    if steps == [] then None
    else
      var n := |steps| - 1;
      var before := Entry(steps[..n], room, s);
      if Adds(steps[n], room, s) then if before.Some? then before else Some(n)
      else if Removes(steps[n], room, s) then None
      else before
  }

  lemma EntersAtNext(steps: seq<MirrorStep>, step: MirrorStep, room: RoomId, s: SocketId, i: nat)
    requires i < |steps|
    ensures EntersAt(steps + [step], room, s, i) <==> EntersAt(steps, room, s, i) && !Removes(step, room, s)
  {
    var all := steps + [step];
    assert forall k :: 0 <= k < i ==> (RemovedBetween(all, room, s, k, i) <==> RemovedBetween(steps, room, s, k, i)) by {
      assert forall j :: 0 <= j < i ==> all[j] == steps[j];
    }
    assert forall k :: 0 <= k < |steps| ==> all[k] == steps[k];
    assert all[|steps|] == step;
  }

  /** Who has no entry was removed after each of its joins. */
  lemma {:induction false} EntryIsEntersAt(steps: seq<MirrorStep>, room: RoomId, s: SocketId)
    ensures forall i: nat :: EntersAt(steps, room, s, i) <==> Entry(steps, room, s) == Some(i)
    ensures Entry(steps, room, s).None? ==>
      forall k :: 0 <= k < |steps| && Adds(steps[k], room, s) ==> RemovedBetween(steps, room, s, k, |steps|)
  {
    if steps != [] {
      var n := |steps| - 1;
      var before, step := steps[..n], steps[n];
      EntryIsEntersAt(before, room, s);
      assert steps == before + [step];
      forall i: nat | i < n ensures EntersAt(steps, room, s, i) <==> EntersAt(before, room, s, i) && !Removes(step, room, s) {
        EntersAtNext(before, step, room, s, i);
      }
      forall k | 0 <= k < n && RemovedBetween(before, room, s, k, n) ensures RemovedBetween(steps, room, s, k, n) {
        var j :| k < j < n && Removes(before[j], room, s);
        assert Removes(steps[j], room, s);
      }
      if Adds(step, room, s) {
        EnteringLast(before, step, room, s);
      } else if Removes(step, room, s) {
        assert forall k :: 0 <= k < n ==> RemovedBetween(steps, room, s, k, |steps|);
      } else {
        assert !EntersAt(steps, room, s, n);
      }
    }
  }

  lemma EnteringLast(steps: seq<MirrorStep>, step: MirrorStep, room: RoomId, s: SocketId)
    requires Adds(step, room, s)
    requires forall i: nat :: EntersAt(steps, room, s, i) <==> Entry(steps, room, s) == Some(i)
    requires Entry(steps, room, s).None? ==>
      forall k :: 0 <= k < |steps| && Adds(steps[k], room, s) ==> RemovedBetween(steps, room, s, k, |steps|)
    ensures EntersAt(steps + [step], room, s, |steps|) <==> Entry(steps, room, s).None?
  {
    var all := steps + [step];
    assert forall k :: 0 <= k < |steps| ==> all[k] == steps[k];
    if Entry(steps, room, s).Some? {
      var i := Entry(steps, room, s).value;
      assert EntersAt(steps, room, s, i);
      assert Adds(all[i], room, s) && !RemovedBetween(all, room, s, i, |steps|);
    } else {
      forall k | 0 <= k < |steps| && Adds(all[k], room, s) ensures RemovedBetween(all, room, s, k, |steps|) {
        var j :| k < j < |steps| && Removes(steps[j], room, s);
        assert Removes(all[j], room, s);
      }
    }
  }

  // ---- the order of the map is the order of entry ----

  ghost predicate Sorted(keys: seq<SocketId>, steps: seq<MirrorStep>, room: RoomId) {
    (forall a :: 0 <= a < |keys| ==> Entry(steps, room, keys[a]).Some?) &&
    forall a, b :: 0 <= a < b < |keys| ==> Entry(steps, room, keys[a]).value < Entry(steps, room, keys[b]).value
  }

  ghost predicate Ordered(peers: Peers, steps: seq<MirrorStep>, room: RoomId) {
    (forall s :: IsPeer(peers, room, s) <==> Entry(steps, room, s).Some?) &&
    (room in peers ==> Sorted(peers[room].keys, steps, room))
  }

  lemma {:induction false} WithoutStaysSorted(keys: seq<SocketId>, x: SocketId, steps: seq<MirrorStep>, room: RoomId)
    requires Sorted(keys, steps, room)
    ensures Sorted(Without(keys, x), steps, room)
  {
    if keys != [] {
      var rest := Without(keys[1..], x);
      WithoutStaysSorted(keys[1..], x, steps, room);
      forall b | 0 <= b < |rest| ensures Entry(steps, room, keys[0]).value < Entry(steps, room, rest[b]).value {
        assert rest[b] in keys[1..];
      }
    }
  }

  lemma SortedFrame(keys: seq<SocketId>, steps: seq<MirrorStep>, steps': seq<MirrorStep>, room: RoomId)
    requires Sorted(keys, steps, room) && forall s :: s in keys ==> Entry(steps', room, s) == Entry(steps, room, s)
    ensures Sorted(keys, steps', room)
  {
  }

  lemma EntryNext(steps: seq<MirrorStep>, step: MirrorStep, room: RoomId, s: SocketId)
    ensures Entry(steps + [step], room, s) ==
      if Adds(step, room, s) then if Entry(steps, room, s).Some? then Entry(steps, room, s) else Some(|steps|)
      else if Removes(step, room, s) then None
      else Entry(steps, room, s)
  {
    assert (steps + [step])[..|steps|] == steps;
  }

  lemma SortedAppend(keys: seq<SocketId>, s: SocketId, steps: seq<MirrorStep>, room: RoomId)
    requires Sorted(keys, steps, room) && Entry(steps, room, s).Some?
    requires forall x :: x in keys ==> Entry(steps, room, x).value < Entry(steps, room, s).value
    ensures Sorted(keys + [s], steps, room)
  {
    assert forall a :: 0 <= a < |keys| ==> keys[a] in keys;
  }

  lemma KeysAfterAdd(peers: Peers, steps: seq<MirrorStep>, room: RoomId, s: SocketId, user: UserId)
    requires NoEmptyRoom(peers) && Ordered(peers, steps, room)
    ensures Sorted(AddPeer(peers, room, s, user)[room].keys, steps + [Add(room, s, user)], room)
  {
    var keys: seq<SocketId> := if room in peers then peers[room].keys else [];
    var steps' := steps + [Add(room, s, user)];
    forall x | x in keys ensures IsPeer(peers, room, x) && Entry(steps', room, x) == Entry(steps, room, x) {
      EntryNext(steps, Add(room, s, user), room, x);
    }
    SortedFrame(keys, steps, steps', room);
    if !IsPeer(peers, room, s) {
      EntryNext(steps, Add(room, s, user), room, s);
      SortedAppend(keys, s, steps', room);
    }
  }

  lemma AddStaysOrdered(peers: Peers, steps: seq<MirrorStep>, room: RoomId, s: SocketId, user: UserId, r: RoomId)
    requires NoEmptyRoom(peers) && Ordered(peers, steps, r)
    ensures Ordered(AddPeer(peers, room, s, user), steps + [Add(room, s, user)], r)
  {
    AddPeerEffect(peers, room, s, user);
    forall x ensures IsPeer(AddPeer(peers, room, s, user), r, x) <==> Entry(steps + [Add(room, s, user)], r, x).Some? {
      EntryNext(steps, Add(room, s, user), r, x);
    }
    if r == room {
      KeysAfterAdd(peers, steps, room, s, user);
    } else if r in peers {
      forall x | x in peers[r].keys ensures Entry(steps + [Add(room, s, user)], r, x) == Entry(steps, r, x) {
        EntryNext(steps, Add(room, s, user), r, x);
      }
      SortedFrame(peers[r].keys, steps, steps + [Add(room, s, user)], r);
    }
  }

  lemma RemoveStaysOrdered(peers: Peers, steps: seq<MirrorStep>, room: RoomId, s: SocketId, r: RoomId)
    requires NoEmptyRoom(peers) && Ordered(peers, steps, r)
    ensures Ordered(RemovePeer(peers, room, s), steps + [Remove(room, s)], r)
  {
    var steps', peers' := steps + [Remove(room, s)], RemovePeer(peers, room, s);
    RemovePeerEffect(peers, room, s);
    forall x {
      EntryNext(steps, Remove(room, s), r, x);
    }
    if r in peers' {
      if r == room {
        WithoutStaysSorted(peers[r].keys, s, steps, r);
      }
      SortedFrame(peers'[r].keys, steps, steps', r);
    }
  }

  /** In every run the peers of a room are those that have entered and not been removed, and the map
      lists them in the order of their entries. */
  lemma {:induction false} MapIsInEntryOrder(steps: seq<MirrorStep>, room: RoomId)
    ensures Ordered(MirrorRun(steps).peers, steps, room)
  {
    if steps != [] {
      var before, step := steps[..|steps| - 1], steps[|steps| - 1];
      MapIsInEntryOrder(before, room);
      MirrorCatchesUp(before);
      assert steps == before + [step];
      match step
      case Add(r, s, u) => AddStaysOrdered(MirrorRun(before).peers, before, r, s, u, room);
      case Remove(r, s) => RemoveStaysOrdered(MirrorRun(before).peers, before, r, s, room);
      case RedisExecutes =>
        forall x {
          EntryNext(before, RedisExecutes, room, x);
        }
        if room in MirrorRun(before).peers {
          SortedFrame(MirrorRun(before).peers[room].keys, before, steps, room);
        }
    }
  }

  // ---- who is found ----

  /** `s` is a current socket of the user and none of the user's current sockets entered after it. */
  ghost predicate LastToEnter(steps: seq<MirrorStep>, room: RoomId, s: SocketId, user: UserId) {
    var peers := MirrorRun(steps).peers;
    PeerOf(peers, room, s, user) &&
    forall x, i: nat, k: nat :: PeerOf(peers, room, x, user) && EntersAt(steps, room, s, i) && EntersAt(steps, room, x, k) ==> k <= i
  }

  lemma LastKeyEntersLast(m: JsMap<SocketId, UserId>, steps: seq<MirrorStep>, room: RoomId, s: SocketId, user: UserId, x: SocketId)
    requires Sorted(m.keys, steps, room) && LastAmong(m.keys, m.vals, user, s)
    requires x in m.vals && m.vals[x] == user && x != s
    ensures Entry(steps, room, s).Some? && Entry(steps, room, x).Some?
    ensures Entry(steps, room, x).value < Entry(steps, room, s).value
  {
    var i :| 0 <= i < |m.keys| && m.keys[i] == s && forall j :: i < j < |m.keys| && m.keys[j] in m.vals ==> m.vals[m.keys[j]] != user;
    var j :| 0 <= j < |m.keys| && m.keys[j] == x;
    assert j < i;
  }

  lemma FoundEntersLast(steps: seq<MirrorStep>, room: RoomId, s: SocketId, user: UserId)
    requires SocketOfUser(MirrorRun(steps).peers, room, user) == Some(s)
    ensures PeerOf(MirrorRun(steps).peers, room, s, user) && Entry(steps, room, s).Some?
    ensures forall x :: PeerOf(MirrorRun(steps).peers, room, x, user) && x != s ==>
      Entry(steps, room, x).Some? && Entry(steps, room, x).value < Entry(steps, room, s).value
  {
    var m := MirrorRun(steps).peers[room];
    MapIsInEntryOrder(steps, room);
    SocketOfIsLast(m.keys, m.vals, user);
    forall x | PeerOf(MirrorRun(steps).peers, room, x, user) && x != s
      ensures Entry(steps, room, x).Some? && Entry(steps, room, x).value < Entry(steps, room, s).value
    {
      LastKeyEntersLast(m, steps, room, s, user, x);
    }
  }

  ghost predicate LatestEntry(steps: seq<MirrorStep>, peers: Peers, room: RoomId, s: SocketId, user: UserId) {
    Entry(steps, room, s).Some? &&
    forall x :: PeerOf(peers, room, x, user) && x != s && Entry(steps, room, x).Some? ==>
      Entry(steps, room, x).value < Entry(steps, room, s).value
  }

  lemma FoundIffLatestEntry(steps: seq<MirrorStep>, room: RoomId, s: SocketId, user: UserId)
    ensures var peers := MirrorRun(steps).peers;
      SocketOfUser(peers, room, user) == Some(s) <==> PeerOf(peers, room, s, user) && LatestEntry(steps, peers, room, s, user)
  {
    MapIsInEntryOrder(steps, room);
    SocketOfUserIsPeer(MirrorRun(steps).peers, room, user);
    if SocketOfUser(MirrorRun(steps).peers, room, user).Some? {
      FoundEntersLast(steps, room, SocketOfUser(MirrorRun(steps).peers, room, user).value, user);
    }
  }

  /** In every run the socket found for a user is the one, of its current sockets in the room, that
      entered last: whose first join since its last removal is the latest. */
  lemma LastEntrantWins(steps: seq<MirrorStep>, room: RoomId, s: SocketId, user: UserId)
    ensures SocketOfUser(MirrorRun(steps).peers, room, user) == Some(s) <==> LastToEnter(steps, room, s, user)
  {
    forall x ensures forall i: nat :: EntersAt(steps, room, x, i) <==> Entry(steps, room, x) == Some(i) {
      EntryIsEntersAt(steps, room, x);
    }
    FoundIffLatestEntry(steps, room, s, user);
    MapIsInEntryOrder(steps, room);
    SameEntrySameSocket(steps, room);
  }

  /** A step lets one socket enter. */
  lemma SameEntrySameSocket(steps: seq<MirrorStep>, room: RoomId)
    ensures forall x, y :: Entry(steps, room, x).Some? && Entry(steps, room, x) == Entry(steps, room, y) ==> x == y
  {
    forall x, y | Entry(steps, room, x).Some? && Entry(steps, room, x) == Entry(steps, room, y) ensures x == y {
      EntryIsEntersAt(steps, room, x);
      EntryIsEntersAt(steps, room, y);
      var i := Entry(steps, room, x).value;
      assert EntersAt(steps, room, x, i) && EntersAt(steps, room, y, i);
    }
  }

  // ---- the most recent joiner ----

  lemma JoinerIsLatestIff(steps: seq<MirrorStep>, room: RoomId, s: SocketId, user: UserId)
    ensures var peers, peers' := MirrorRun(steps).peers, MirrorRun(steps + [Add(room, s, user)]).peers;
      LatestEntry(steps + [Add(room, s, user)], peers', room, s, user) <==>
      !IsPeer(peers, room, s) || LatestEntry(steps, peers, room, s, user)
  {
    var step, peers := Add(room, s, user), MirrorRun(steps).peers;
    assert (steps + [step])[..|steps|] == steps;
    MirrorCatchesUp(steps);
    AddPeerEffect(peers, room, s, user);
    MapIsInEntryOrder(steps, room);
    forall x ensures x != s ==> Entry(steps + [step], room, x) == Entry(steps, room, x) {
      EntryNext(steps, step, room, x);
    }
    EntryNext(steps, step, room, s);
  }

  /** No other current socket of the user entered the room after `s` did. */
  ghost predicate NoneAfter(steps: seq<MirrorStep>, room: RoomId, s: SocketId, user: UserId) {
    forall x, i: nat, k: nat ::
      x != s && PeerOf(MirrorRun(steps).peers, room, x, user) && EntersAt(steps, room, s, i) && EntersAt(steps, room, x, k) ==>
        k < i
  }

  lemma NoneAfterIsLatest(steps: seq<MirrorStep>, room: RoomId, s: SocketId, user: UserId)
    requires IsPeer(MirrorRun(steps).peers, room, s)
    ensures NoneAfter(steps, room, s, user) <==> LatestEntry(steps, MirrorRun(steps).peers, room, s, user)
  {
    forall x ensures forall i: nat :: EntersAt(steps, room, x, i) <==> Entry(steps, room, x) == Some(i) {
      EntryIsEntersAt(steps, room, x);
    }
    MapIsInEntryOrder(steps, room);
  }

  /** The most recent joiner is the one found if and only if, before it joined, it was new to the room
      or no other socket of the user there had entered after it. */
  lemma JoinerWinsIff(steps: seq<MirrorStep>, room: RoomId, s: SocketId, user: UserId)
    ensures var peers := MirrorRun(steps).peers;
      SocketOfUser(AddPeer(peers, room, s, user), room, user) == Some(s) <==>
      !IsPeer(peers, room, s) || NoneAfter(steps, room, s, user)
  {
    var step := Add(room, s, user);
    assert (steps + [step])[..|steps|] == steps;
    FoundIffLatestEntry(steps + [step], room, s, user);
    JoinerIsLatestIff(steps, room, s, user);
    if IsPeer(MirrorRun(steps).peers, room, s) {
      NoneAfterIsLatest(steps, room, s, user);
    }
  }

  /** A socket that joins again keeps its place: with two sockets of a user, the first joins last and
      the second is found. */
  lemma RejoinDoesNotWin()
    ensures var steps := [Add(5, 1, 10), Add(5, 2, 10), Add(5, 1, 10)];
      SocketOfUser(MirrorRun(steps).peers, 5, 10) == Some(2)
  {
    var steps := [Add(5, 1, 10), Add(5, 2, 10), Add(5, 1, 10)];
    assert steps[..2] == [Add(5, 1, 10), Add(5, 2, 10)] && steps[..2][..1] == [Add(5, 1, 10)];
    assert EntersAt(steps, 5, 1, 0) && EntersAt(steps, 5, 2, 1);
    assert PeerOf(MirrorRun(steps).peers, 5, 2, 10);
    LastEntrantWins(steps, 5, 2, 10);
  }
}
