/** Steps that create or dissolve the things connections share: rooms, channels, the
    connection table itself. */
module RelayRooms {
  import opened Wrappers
  import opened Bytes
  import opened Framing
  import opened ClientStream
  import opened RelayState
  import opened RelaySteps
  import opened RelayClose
  import opened RelayMatch
  import opened RelayFrame
  import opened RelayStages

  // ---------------------------------------------------------------- a channel for two

  function Dissolved(r: Room): Room { r.(host := None, guest := None) }

  /** make_channel for a and b; when they come from a room, the room is gone. */
  function Matched(s: Loop, a: nat, b: nat, room: Option<nat>, ranked: bool): Loop
    requires a < |s.conns| && b < |s.conns| && (room.Some? ==> room.value < |s.roomAt|)
  {
    RoomLeft(OnSides(Registered(s, FreshMatch(s.conns, a, b, ranked)), a, b, |s.chanAt|), room)
  }

  function Registered(s: Loop, c: Channel): Loop {
    s.(chanAt := s.chanAt + [c], chans := s.chans + {|s.chanAt|}, matchCount := s.matchCount + 1)
  }

  function OnSides(s: Loop, a: nat, b: nat, k: nat): Loop
    requires a < |s.conns| && b < |s.conns|
  {
    s.(conns := Sided(s.conns, a, b, k))
  }

  function RoomLeft(s: Loop, room: Option<nat>): Loop
    requires room.Some? ==> room.value < |s.roomAt|
  {
    if room.None? then s
    else s.(roomAt := s.roomAt[room.value := Dissolved(s.roomAt[room.value])],
            rooms := s.rooms - {s.roomAt[room.value].code})
  }

  /** Both out of any room, and on the two sides of channel k. */
  function Sided(conns: seq<Conn>, a: nat, b: nat, k: nat): seq<Conn>
    requires a < |conns| && b < |conns|
  {
    conns[a := conns[a].(room := None, ch := Some(k), isA := true)]
         [b := conns[b].(room := None, ch := Some(k), isA := false)]
  }

  function FreshMatch(conns: seq<Conn>, a: nat, b: nat, ranked: bool): Channel
    requires a < |conns| && b < |conns|
  {
    Channel(ranked, Some(a), Some(b), conns[a].playerId, conns[b].playerId, None, None, false, false, false, 0)
  }

  /** Two live connections with nothing but, possibly, one common room. */
  ghost predicate Matchable(s: Loop, a: nat, b: nat, room: Option<nat>) {
    Live(s, a) && Live(s, b) && a != b && s.conns[a].ch.None? && s.conns[b].ch.None? &&
    if room.Some?
    then room.value < |s.roomAt| && RoomOpen(s, room.value) &&
         s.roomAt[room.value].host == Some(a) && s.roomAt[room.value].guest == Some(b)
    else s.conns[a].room.None? && s.conns[b].room.None?
  }

  lemma MatchedConn(s: Loop, a: nat, b: nat, room: Option<nat>, ranked: bool, i: nat)
    requires Links(s) && Matchable(s, a, b, room) && i < |s.conns|
    ensures i < |Matched(s, a, b, room, ranked).conns| && ConnLinked(Matched(s, a, b, room, ranked), i)
  {
    assert ConnLinked(s, i);
    if i == a || i == b {
      MatchedSide(s, a, b, room, ranked, i);
    } else {
      if room.Some? { assert SlotLinked(s, room.value, true) && SlotLinked(s, room.value, false); }
      MatchedOther(s, a, b, room, ranked, i);
    }
  }

  lemma MatchedSide(s: Loop, a: nat, b: nat, room: Option<nat>, ranked: bool, i: nat)
    requires Matchable(s, a, b, room) && (i == a || i == b)
    ensures i < |Matched(s, a, b, room, ranked).conns| && ConnLinked(Matched(s, a, b, room, ranked), i)
  {}

  lemma MatchedOther(s: Loop, a: nat, b: nat, room: Option<nat>, ranked: bool, i: nat)
    requires Matchable(s, a, b, room) && i < |s.conns| && ConnLinked(s, i) && i != a && i != b
    ensures i < |Matched(s, a, b, room, ranked).conns| && ConnLinked(Matched(s, a, b, room, ranked), i)
  {}

  lemma MatchedConnLinks(s: Loop, a: nat, b: nat, room: Option<nat>, ranked: bool)
    requires Links(s) && Matchable(s, a, b, room)
    ensures forall i :: 0 <= i < |s.conns| ==> ConnLinked(Matched(s, a, b, room, ranked), i)
  {
    forall i | 0 <= i < |s.conns|
      ensures ConnLinked(Matched(s, a, b, room, ranked), i)
    {
      MatchedConn(s, a, b, room, ranked, i);
    }
  }

  lemma MatchedSlots(s: Loop, a: nat, b: nat, room: Option<nat>, ranked: bool, r: nat, host: bool)
    requires Links(s) && Matchable(s, a, b, room) && r < |s.roomAt|
    ensures r < |Matched(s, a, b, room, ranked).roomAt| && SlotLinked(Matched(s, a, b, room, ranked), r, host)
  {
    assert SlotLinked(s, r, host);
    if room.Some? {
      assert SlotLinked(s, room.value, true) && SlotLinked(s, room.value, false);
    }
  }

  lemma MatchedSides(s: Loop, a: nat, b: nat, room: Option<nat>, ranked: bool, k: nat, side: bool)
    requires Links(s) && Matchable(s, a, b, room) && k <= |s.chanAt|
    ensures k < |Matched(s, a, b, room, ranked).chanAt| && SideLinked(Matched(s, a, b, room, ranked), k, side)
  {
    if k < |s.chanAt| { assert SideLinked(s, k, side); }
  }

  lemma MatchedLinks(s: Loop, a: nat, b: nat, room: Option<nat>, ranked: bool)
    requires Links(s) && Matchable(s, a, b, room)
    ensures Links(Matched(s, a, b, room, ranked))
  {
    var t := Matched(s, a, b, room, ranked);
    MatchedConnLinks(s, a, b, room, ranked);
    forall r | 0 <= r < |t.roomAt|
      ensures SlotLinked(t, r, true) && SlotLinked(t, r, false)
    {
      MatchedSlots(s, a, b, room, ranked, r, true);
      MatchedSlots(s, a, b, room, ranked, r, false);
    }
    forall k | 0 <= k < |t.chanAt|
      ensures SideLinked(t, k, true) && SideLinked(t, k, false)
    {
      MatchedSides(s, a, b, room, ranked, k, true);
      MatchedSides(s, a, b, room, ranked, k, false);
    }
  }

  lemma MatchedFeeder(s: Loop, a: nat, b: nat, room: Option<nat>, ranked: bool, i: nat)
    requires Links(s) && Matchable(s, a, b, room) && Live(s, i)
    ensures i == a ==> Feeder(Matched(s, a, b, room, ranked), i) == Some(b)
    ensures i == b ==> Feeder(Matched(s, a, b, room, ranked), i) == Some(a)
    ensures i != a && i != b ==> Feeder(Matched(s, a, b, room, ranked), i) == Feeder(s, i)
    ensures i == a && Feeder(s, i).Some? ==> Feeder(s, i) == Some(b)
    ensures i == b && Feeder(s, i).Some? ==> Feeder(s, i) == Some(a)
  {
    assert ConnLinked(s, i) && ConnLinked(s, a) && ConnLinked(s, b);
    if room.Some? {
      assert SlotLinked(s, room.value, true) && SlotLinked(s, room.value, false);
    }
  }

  lemma MatchedWakeups(s: Loop, a: nat, b: nat, room: Option<nat>, ranked: bool)
    requires Links(s) && Wakeups(s) && Matchable(s, a, b, room)
    ensures Wakeups(Matched(s, a, b, room, ranked))
  {
    var t := Matched(s, a, b, room, ranked);
    forall i | 0 <= i < |t.conns|
      ensures Awake(t, i)
    {
      assert Awake(s, i);
      if s.conns[i].stage != Dead {
        MatchedFeeder(s, a, b, room, ranked, i);
      }
    }
  }

  /** Two connection lists that agree on who is live, from where, and who is greeting. */
  ghost predicate SameCensus(u: seq<Conn>, v: seq<Conn>) {
    |u| == |v| &&
    forall i :: 0 <= i < |u| ==>
      (u[i].stage == Dead <==> v[i].stage == Dead) && u[i].ip == v[i].ip && u[i].handshake == v[i].handshake
  }

  lemma CensusCounts(s: Loop, t: Loop)
    requires SameCensus(s.conns, t.conns) && Counts(s)
    requires t.closing == s.closing && t.sessions == s.sessions && t.handshakes == s.handshakes
    requires t.connCount == s.connCount && t.lim == s.lim && t.matchCount == |t.chans|
    ensures Counts(t)
  {
    assert LiveSet(t.conns) == LiveSet(s.conns);
    forall ip
      ensures LiveFrom(t.conns, ip) == LiveFrom(s.conns, ip)
      ensures ShakingFrom(t.conns, ip) == ShakingFrom(s.conns, ip)
    {}
  }

  lemma MatchedLedger(s: Loop, a: nat, b: nat, room: Option<nat>, ranked: bool)
    requires Matchable(s, a, b, room) && Buffers(s) && Counts(s) && Outputs(s)
    requires |s.chanAt| !in s.chans
    ensures var t := Matched(s, a, b, room, ranked);
            Buffers(t) && Counts(t) && Outputs(t)
  {
    var t := Matched(s, a, b, room, ranked);
    assert Counts(t) by { MatchedCounts(s, a, b, room, ranked); }
    assert Buffers(t) && Outputs(t) by {
      MatchedSum(s, a, b, room, ranked);
      MatchedCasts(s, a, b, room, ranked);
      SameBuffers(s, t);
    }
  }

  lemma SameBuffers(s: Loop, t: Loop)
    requires Buffers(s) && Outputs(s)
    requires |t.conns| == |s.conns| && t.txTotal == s.txTotal && t.lim == s.lim && TxSum(t.conns) == TxSum(s.conns)
    requires forall i :: 0 <= i < |s.conns| ==>
               t.conns[i].stage == s.conns[i].stage && t.conns[i].tx == s.conns[i].tx &&
               t.conns[i].rx == s.conns[i].rx && t.conns[i].sent == s.conns[i].sent
    ensures Buffers(t) && Outputs(t)
  {}

  lemma MatchedCasts(s: Loop, a: nat, b: nat, room: Option<nat>, ranked: bool)
    requires Matchable(s, a, b, room)
    ensures var t := Matched(s, a, b, room, ranked);
            |t.conns| == |s.conns| && t.txTotal == s.txTotal && t.lim == s.lim &&
            forall i :: 0 <= i < |s.conns| ==>
              t.conns[i].stage == s.conns[i].stage && t.conns[i].tx == s.conns[i].tx &&
              t.conns[i].rx == s.conns[i].rx && t.conns[i].sent == s.conns[i].sent
  {}

  lemma MatchedCounts(s: Loop, a: nat, b: nat, room: Option<nat>, ranked: bool)
    requires Matchable(s, a, b, room) && Counts(s) && |s.chanAt| !in s.chans
    ensures Counts(Matched(s, a, b, room, ranked))
  {
    var t := Matched(s, a, b, room, ranked);
    MatchedCensus(s, a, b, room, ranked);
    PlusOne(s.chans, |s.chanAt|);
    CensusCounts(s, t);
  }

  lemma MatchedCensus(s: Loop, a: nat, b: nat, room: Option<nat>, ranked: bool)
    requires Matchable(s, a, b, room)
    ensures SameCensus(s.conns, Matched(s, a, b, room, ranked).conns)
  {}

  lemma MatchedSum(s: Loop, a: nat, b: nat, room: Option<nat>, ranked: bool)
    requires Matchable(s, a, b, room)
    ensures TxSum(Matched(s, a, b, room, ranked).conns) == TxSum(s.conns)
  {
    var t := Matched(s, a, b, room, ranked);
    TxSumUpdate(s.conns, a, t.conns[a]);
    TxSumUpdate(s.conns[a := t.conns[a]], b, t.conns[b]);
  }

  lemma MatchedLeases(s: Loop, a: nat, b: nat, room: Option<nat>, ranked: bool)
    requires Matchable(s, a, b, room) && Leases(s)
    ensures Leases(Matched(s, a, b, room, ranked))
  {
    var t := Matched(s, a, b, room, ranked);
    forall x | x in t.leases
      ensures LeaseHeld(t, x)
    {
      assert LeaseHeld(s, x);
    }
    forall i: nat | Live(t, i) && t.conns[i].lease
      ensures t.conns[i].playerId > 0 && t.conns[i].playerId in t.leases && t.leases[t.conns[i].playerId] == i
    {
      assert Live(s, i);
    }
  }

  lemma MatchedChannels(s: Loop, a: nat, b: nat, room: Option<nat>, ranked: bool)
    requires Matchable(s, a, b, room) && Channels(s)
    ensures Channels(Matched(s, a, b, room, ranked))
  {
    var t := Matched(s, a, b, room, ranked);
    forall k | 0 <= k < |t.chanAt|
      ensures ChanSound(t, k)
    {
      if k < |s.chanAt| {
        assert ChanSound(s, k);
      }
    }
    forall n | 0 <= n < |t.posts|
      ensures PostOk(t, t.posts[n])
    {
      assert PostOk(s, s.posts[n]);
    }
  }

  lemma MatchedTables(s: Loop, a: nat, b: nat, room: Option<nat>, ranked: bool)
    requires Matchable(s, a, b, room) && Tables(s) && QueueOk(s) && RoomsOccupied(s) && Links(s)
    ensures var t := Matched(s, a, b, room, ranked);
            Tables(t) && QueueOk(t) && RoomsOccupied(t)
  {
    var t := Matched(s, a, b, room, ranked);
    MatchedStill(s, a, b, room, ranked);
    SameStages(s, t);
    MatchedOccupied(s, a, b, room, ranked);
  }

  /** Tables and queue depend on the stages only. */
  lemma SameStages(s: Loop, t: Loop)
    requires |t.conns| == |s.conns| && forall i :: 0 <= i < |s.conns| ==> t.conns[i].stage == s.conns[i].stage
    requires t.table == s.table && t.queue == s.queue && t.dying == s.dying && t.closing == s.closing
    requires t.pendingAuth == s.pendingAuth && t.lim == s.lim && Tables(s) && QueueOk(s)
    ensures Tables(t) && QueueOk(t)
  {}

  lemma MatchedOccupied(s: Loop, a: nat, b: nat, room: Option<nat>, ranked: bool)
    requires Matchable(s, a, b, room) && RoomsOccupied(s) && Links(s)
    ensures RoomsOccupied(Matched(s, a, b, room, ranked))
  {
    var t := Matched(s, a, b, room, ranked);
    forall r | 0 <= r < |t.roomAt| && RoomOpen(t, r)
      ensures t.roomAt[r].host.Some? || t.roomAt[r].guest.Some?
    {
      assert RoomOpen(s, r);
    }
  }

  lemma MatchedStill(s: Loop, a: nat, b: nat, room: Option<nat>, ranked: bool)
    requires Matchable(s, a, b, room)
    ensures var t := Matched(s, a, b, room, ranked);
            |t.conns| == |s.conns| && (forall i :: 0 <= i < |s.conns| ==> t.conns[i].stage == s.conns[i].stage) &&
            t.table == s.table && t.queue == s.queue && t.dying == s.dying && t.closing == s.closing &&
            t.pendingAuth == s.pendingAuth && t.lim == s.lim
  {}

  lemma MatchedKeeps(s: Loop, a: nat, b: nat, room: Option<nat>, ranked: bool)
    requires Inv(s) && Matchable(s, a, b, room)
    ensures Inv(Matched(s, a, b, room, ranked))
  {
    MatchedLinks(s, a, b, room, ranked);
    MatchedWakeups(s, a, b, room, ranked);
    MatchedLedger(s, a, b, room, ranked);
    MatchedLeases(s, a, b, room, ranked);
    MatchedChannels(s, a, b, room, ranked);
    MatchedTables(s, a, b, room, ranked);
  }

  lemma MatchedStages(s: Loop, a: nat, b: nat, room: Option<nat>, ranked: bool, moving: set<nat>)
    requires Matchable(s, a, b, room) && Stages(s, moving)
    ensures Stages(Matched(s, a, b, room, ranked), moving + {a, b})
  {
    var t := Matched(s, a, b, room, ranked);
    forall i | 0 <= i < |t.conns| && i !in moving + {a, b}
      ensures StageOk(t, i)
    {
      assert StageOk(s, i);
    }
  }

  // ---------------------------------------------------------------- rooms

  function RoomCreated(s: Loop, c: nat, code: seq<byte>): Loop
    requires c < |s.conns|
  {
    var r := |s.roomAt|;
    s.(conns := s.conns[c := s.conns[c].(room := Some(r), isHost := true, stage := InRoom)],
       roomAt := s.roomAt + [Room(code, Some(c), None)],
       rooms := s.rooms[code := r])
  }

  function RoomJoined(s: Loop, c: nat, r: nat): Loop
    requires c < |s.conns| && r < |s.roomAt|
  {
    s.(conns := s.conns[c := s.conns[c].(room := Some(r), isHost := false, stage := InRoom)],
       roomAt := s.roomAt[r := s.roomAt[r].(guest := Some(c))])
  }

  /** A live connection with no place yet: not waiting, not authenticating, not in a room. */
  ghost predicate Unplaced(s: Loop, c: nat) {
    Live(s, c) && Known(s.conns[c]) && s.conns[c].room.None? && s.conns[c].ch.None? &&
    c !in s.queue && c !in s.pendingAuth && Unheard(s.conns[c])
  }

  lemma RoomCreatedLinks(s: Loop, c: nat, code: seq<byte>)
    requires Links(s) && Unplaced(s, c) && code !in s.rooms
    ensures Links(RoomCreated(s, c, code))
  {
    var t := RoomCreated(s, c, code);
    forall i | 0 <= i < |t.conns|
      ensures ConnLinked(t, i)
    {
      assert ConnLinked(s, i);
    }
    forall r | 0 <= r < |t.roomAt|
      ensures SlotLinked(t, r, true) && SlotLinked(t, r, false)
    {
      if r < |s.roomAt| {
        assert SlotLinked(s, r, true) && SlotLinked(s, r, false);
      }
    }
    forall k | 0 <= k < |t.chanAt|
      ensures SideLinked(t, k, true) && SideLinked(t, k, false)
    {
      assert SideLinked(s, k, true) && SideLinked(s, k, false);
    }
  }

  lemma RoomJoinedLinks(s: Loop, c: nat, r: nat)
    requires Links(s) && Unplaced(s, c) && RoomOpen(s, r) && s.roomAt[r].guest.None?
    ensures Links(RoomJoined(s, c, r))
  {
    var t := RoomJoined(s, c, r);
    forall i | 0 <= i < |t.conns|
      ensures ConnLinked(t, i)
    {
      assert ConnLinked(s, i);
    }
    forall q | 0 <= q < |t.roomAt|
      ensures SlotLinked(t, q, true) && SlotLinked(t, q, false)
    {
      assert SlotLinked(s, q, true) && SlotLinked(s, q, false);
    }
    forall k | 0 <= k < |t.chanAt|
      ensures SideLinked(t, k, true) && SideLinked(t, k, false)
    {
      assert SideLinked(s, k, true) && SideLinked(s, k, false);
    }
  }

  lemma RoomCreatedWakeups(s: Loop, c: nat, code: seq<byte>)
    requires Links(s) && Wakeups(s) && Unplaced(s, c)
    ensures Wakeups(RoomCreated(s, c, code))
  {
    var t := RoomCreated(s, c, code);
    forall i | 0 <= i < |t.conns|
      ensures Awake(t, i)
    {
      assert Awake(s, i) && ConnLinked(s, i);
    }
  }

  lemma RoomJoinedFeeder(s: Loop, c: nat, r: nat, i: nat)
    requires Links(s) && Unplaced(s, c) && RoomOpen(s, r) && s.roomAt[r].guest.None? && Live(s, i)
    ensures Feeder(s, i).Some? ==> Feeder(RoomJoined(s, c, r), i) == Feeder(s, i)
  {
    assert ConnLinked(s, i);
  }

  lemma RoomJoinedWakeups(s: Loop, c: nat, r: nat)
    requires Links(s) && Wakeups(s) && Unplaced(s, c) && RoomOpen(s, r) && s.roomAt[r].guest.None?
    ensures Wakeups(RoomJoined(s, c, r))
  {
    var t := RoomJoined(s, c, r);
    forall i | 0 <= i < |t.conns|
      ensures Awake(t, i)
    {
      assert Awake(s, i);
      if s.conns[i].stage != Dead {
        RoomJoinedFeeder(s, c, r, i);
      }
    }
  }

  /** Ledgers, leases, matches: what entering a room cannot disturb. */
  lemma HousedRest(s: Loop, t: Loop, c: nat)
    requires Unplaced(s, c) && |t.conns| == |s.conns| && t.conns == s.conns[c := t.conns[c]]
    requires t.conns[c] == s.conns[c].(room := t.conns[c].room, isHost := t.conns[c].isHost, stage := InRoom)
    requires t == s.(conns := t.conns, roomAt := t.roomAt, rooms := t.rooms)
    ensures Buffers(s) && Outputs(s) ==> Buffers(t) && Outputs(t)
    ensures Counts(s) ==> Counts(t)
    ensures Tables(s) && QueueOk(s) ==> Tables(t) && QueueOk(t)
    ensures Leases(s) ==> Leases(t)
    ensures Channels(s) ==> Channels(t)
  {
    if Buffers(s) && Outputs(s) {
      BuffersInPlace(s, t, c);
    }
    if Counts(s) { CensusCounts(s, t); }
    if Leases(s) { HousedLeases(s, t, c); }
    if Channels(s) { SameChannels(s, t); }
  }

  lemma SameChannels(s: Loop, t: Loop)
    requires Channels(s) && t.chanAt == s.chanAt && t.chans == s.chans && t.tearing == s.tearing && t.posts == s.posts
    ensures Channels(t)
  {
    forall k | 0 <= k < |t.chanAt|
      ensures ChanSound(t, k)
    {
      assert ChanSound(s, k);
    }
    forall n | 0 <= n < |t.posts|
      ensures PostOk(t, t.posts[n])
    {
      assert PostOk(s, s.posts[n]);
    }
  }

  lemma HousedLeases(s: Loop, t: Loop, c: nat)
    requires Unplaced(s, c) && |t.conns| == |s.conns| && t.conns == s.conns[c := t.conns[c]]
    requires t.conns[c] == s.conns[c].(room := t.conns[c].room, isHost := t.conns[c].isHost, stage := InRoom)
    requires t == s.(conns := t.conns, roomAt := t.roomAt, rooms := t.rooms) && Leases(s)
    ensures Leases(t)
  {
    forall x | x in t.leases
      ensures LeaseHeld(t, x)
    {
      assert LeaseHeld(s, x);
    }
    forall i: nat | Live(t, i) && t.conns[i].lease
      ensures t.conns[i].playerId > 0 && t.conns[i].playerId in t.leases && t.leases[t.conns[i].playerId] == i
    {
      assert Live(s, i);
    }
  }

  lemma RoomCreatedKeeps(s: Loop, c: nat, code: seq<byte>)
    requires Inv(s) && Unplaced(s, c) && code !in s.rooms
    ensures Inv(RoomCreated(s, c, code))
  {
    var t := RoomCreated(s, c, code);
    RoomCreatedLinks(s, c, code);
    RoomCreatedWakeups(s, c, code);
    HousedRest(s, t, c);
    RoomCreatedOccupied(s, c, code);
  }

  lemma RoomCreatedOccupied(s: Loop, c: nat, code: seq<byte>)
    requires RoomsOccupied(s) && c < |s.conns| && code !in s.rooms
    ensures RoomsOccupied(RoomCreated(s, c, code))
  {
    var t := RoomCreated(s, c, code);
    forall r | 0 <= r < |t.roomAt| && RoomOpen(t, r)
      ensures t.roomAt[r].host.Some? || t.roomAt[r].guest.Some?
    {
      if r < |s.roomAt| { assert RoomOpen(s, r); }
    }
  }

  lemma RoomJoinedKeeps(s: Loop, c: nat, r: nat)
    requires Inv(s) && Unplaced(s, c) && RoomOpen(s, r) && s.roomAt[r].guest.None?
    ensures Inv(RoomJoined(s, c, r))
  {
    var t := RoomJoined(s, c, r);
    RoomJoinedLinks(s, c, r);
    RoomJoinedWakeups(s, c, r);
    HousedRest(s, t, c);
    RoomJoinedOccupied(s, c, r);
  }

  lemma RoomJoinedOccupied(s: Loop, c: nat, r: nat)
    requires RoomsOccupied(s) && c < |s.conns| && r < |s.roomAt|
    ensures RoomsOccupied(RoomJoined(s, c, r))
  {
    var t := RoomJoined(s, c, r);
    forall q | 0 <= q < |t.roomAt| && RoomOpen(t, q)
      ensures t.roomAt[q].host.Some? || t.roomAt[q].guest.Some?
    {
      assert RoomOpen(s, q);
    }
  }

  lemma HousedStages(s: Loop, t: Loop, c: nat, moving: set<nat>)
    requires Stages(s, moving) && |t.conns| == |s.conns| && c < |s.conns| && t.conns == s.conns[c := t.conns[c]]
    requires t == s.(conns := t.conns, roomAt := t.roomAt, rooms := t.rooms)
    ensures Stages(t, moving + {c})
  {
    forall i | 0 <= i < |t.conns| && i !in moving + {c}
      ensures StageOk(t, i)
    {
      assert StageOk(s, i);
    }
  }

  // ---------------------------------------------------------------- arrival

  function NewConn(ip: seq<byte>): Conn {
    Conn(FirstFrame, ip, [], [], [], [], false, false, true, false, true, 0, false, ToQueue, [],
         None, false, None, false, false, [])
  }

  function Taken(m: map<seq<byte>, nat>, ip: seq<byte>): map<seq<byte>, nat> {
    m[ip := Count(m, ip) + 1]
  }

  /** Every limit a new connection has to pass. */
  predicate Admissible(s: Loop, ip: seq<byte>) {
    s.connCount < s.lim.maxConns && Count(s.sessions, ip) < s.lim.sessionLimit &&
    Count(s.handshakes, ip) < MAX_HANDSHAKES_PER_IP
  }

  /** Every limit holds with the new connection counted. */
  predicate WithinLimits(s: Loop, ip: seq<byte>) {
    s.connCount <= s.lim.maxConns && Count(s.sessions, ip) <= s.lim.sessionLimit &&
    Count(s.handshakes, ip) <= 16
  }

  /** Nobody is turned away as long as the limits hold with it. */
  lemma AdmissibleIsExact(s: Loop, ip: seq<byte>)
    ensures Admissible(s, ip) <==> WithinLimits(Admitted(s, ip), ip)
  {}

  function Admitted(s: Loop, ip: seq<byte>): Loop {
    s.(conns := s.conns + [NewConn(ip)], table := s.table + {|s.conns|},
       sessions := Taken(s.sessions, ip), handshakes := Taken(s.handshakes, ip),
       connCount := s.connCount + 1)
  }

  lemma AdmittedSets(conns: seq<Conn>, c: Conn, x: seq<byte>)
    requires c.stage != Dead && c.handshake
    ensures LiveSet(conns + [c]) == LiveSet(conns) + {|conns|}
    ensures LiveFrom(conns + [c], x) == if x == c.ip then LiveFrom(conns, x) + {|conns|} else LiveFrom(conns, x)
    ensures ShakingFrom(conns + [c], x) ==
            if x == c.ip then ShakingFrom(conns, x) + {|conns|} else ShakingFrom(conns, x)
  {}

  lemma PlusOne(a: set<nat>, n: nat)
    requires n !in a
    ensures |a + {n}| == |a| + 1
  {}

  lemma AdmittedCounts(s: Loop, ip: seq<byte>)
    requires Counts(s) && Admissible(s, ip)
    ensures Counts(Admitted(s, ip))
  {
    var t := Admitted(s, ip);
    AdmittedTotal(s, ip);
    forall x
      ensures Count(t.sessions, x) == |LiveFrom(t.conns, x)|
      ensures Count(t.handshakes, x) == |ShakingFrom(t.conns, x)|
    {
      AdmittedFrom(s, ip, x);
    }
    TakenCount(s.sessions, ip);
    TakenCount(s.handshakes, ip);
  }

  lemma AdmittedTotal(s: Loop, ip: seq<byte>)
    requires s.connCount == |LiveSet(s.conns)| + |s.closing| && Admissible(s, ip)
    ensures var t := Admitted(s, ip);
            t.connCount == |LiveSet(t.conns)| + |t.closing| && t.connCount <= t.lim.maxConns
  {
    AdmittedSets(s.conns, NewConn(ip), ip);
    PlusOne(LiveSet(s.conns), |s.conns|);
  }

  lemma TakenCount(m: map<seq<byte>, nat>, ip: seq<byte>)
    ensures forall x :: Count(Taken(m, ip), x) == if x == ip then Count(m, ip) + 1 else Count(m, x)
  {}

  lemma AdmittedFrom(s: Loop, ip: seq<byte>, x: seq<byte>)
    requires Count(s.sessions, x) == |LiveFrom(s.conns, x)|
    requires Count(s.handshakes, x) == |ShakingFrom(s.conns, x)|
    ensures Count(Taken(s.sessions, ip), x) == |LiveFrom(s.conns + [NewConn(ip)], x)|
    ensures Count(Taken(s.handshakes, ip), x) == |ShakingFrom(s.conns + [NewConn(ip)], x)|
  {
    AdmittedSets(s.conns, NewConn(ip), x);
    PlusOne(LiveFrom(s.conns, x), |s.conns|);
    PlusOne(ShakingFrom(s.conns, x), |s.conns|);
  }

  lemma AdmittedLinks(s: Loop, ip: seq<byte>)
    requires Links(s) && Wakeups(s)
    ensures Links(Admitted(s, ip)) && Wakeups(Admitted(s, ip))
  {
    var t := Admitted(s, ip);
    forall i | 0 <= i < |t.conns|
      ensures ConnLinked(t, i) && Awake(t, i)
    {
      if i < |s.conns| {
        assert ConnLinked(s, i) && Awake(s, i);
      }
    }
    forall r | 0 <= r < |t.roomAt|
      ensures SlotLinked(t, r, true) && SlotLinked(t, r, false)
    {
      assert SlotLinked(s, r, true) && SlotLinked(s, r, false);
    }
    forall k | 0 <= k < |t.chanAt|
      ensures SideLinked(t, k, true) && SideLinked(t, k, false)
    {
      assert SideLinked(s, k, true) && SideLinked(s, k, false);
    }
  }

  lemma AdmittedRest(s: Loop, ip: seq<byte>)
    requires Leases(s) && Channels(s) && RoomsOccupied(s)
    ensures Leases(Admitted(s, ip)) && Channels(Admitted(s, ip)) && RoomsOccupied(Admitted(s, ip))
  {
    var t := Admitted(s, ip);
    forall x | x in t.leases
      ensures LeaseHeld(t, x)
    {
      assert LeaseHeld(s, x);
    }
    forall k | 0 <= k < |t.chanAt|
      ensures ChanSound(t, k)
    {
      assert ChanSound(s, k);
    }
    forall n | 0 <= n < |t.posts|
      ensures PostOk(t, t.posts[n])
    {
      assert PostOk(s, s.posts[n]);
    }
    forall r | 0 <= r < |t.roomAt| && RoomOpen(t, r)
      ensures t.roomAt[r].host.Some? || t.roomAt[r].guest.Some?
    {
      assert RoomOpen(s, r);
    }
  }

  lemma AdmittedBuffers(s: Loop, ip: seq<byte>)
    requires Buffers(s) && Outputs(s)
    ensures Buffers(Admitted(s, ip)) && Outputs(Admitted(s, ip))
  {
    var t := Admitted(s, ip);
    assert t.conns[..|t.conns| - 1] == s.conns;
    assert Split([]) == Cut([], [], true);
  }

  lemma AdmittedTables(s: Loop, ip: seq<byte>)
    requires Tables(s) && QueueOk(s)
    ensures Tables(Admitted(s, ip)) && QueueOk(Admitted(s, ip))
  {}

  lemma AdmittedKeeps(s: Loop, ip: seq<byte>)
    requires Inv(s) && Admissible(s, ip)
    ensures Inv(Admitted(s, ip))
  {
    AdmittedCounts(s, ip);
    AdmittedLinks(s, ip);
    AdmittedRest(s, ip);
    AdmittedBuffers(s, ip);
    AdmittedTables(s, ip);
  }

  lemma AdmittedStages(s: Loop, ip: seq<byte>)
    requires Stages(s, {})
    ensures Stages(Admitted(s, ip), {})
  {
    var t := Admitted(s, ip);
    forall i | 0 <= i < |t.conns|
      ensures StageOk(t, i)
    {
      if i < |s.conns| {
        assert StageOk(s, i);
      }
    }
  }

  // ---------------------------------------------------------------- sweep

  predicate ChanDone(c: Channel) { c.a.None? && c.b.None? && !c.inflight }

  function KeptChans(s: Loop): set<nat> {
    set k | k in s.chans && !(k < |s.chanAt| && ChanDone(s.chanAt[k]))
  }

  /** A lease survives the sweep if its connection lives or its channel stays registered. */
  predicate LeaseKept(s: Loop, x: int) {
    x in s.leases &&
    var o := s.leases[x];
    o < |s.conns| &&
    ((s.conns[o].stage != Dead && s.conns[o].lease) ||
     (s.conns[o].ch.Some? && s.conns[o].ch.value < |s.chanAt| && s.conns[o].ch.value in KeptChans(s)))
  }

  /** sweep: dead connections leave the table, finished channels are dropped with the leases
      only they were holding. */
  function Swept(s: Loop): Loop {
    s.(table := (set i | i in s.table && i !in s.dying), dying := [],
       chans := KeptChans(s), matchCount := s.matchCount - |s.chans - KeptChans(s)|,
       leases := (map x | x in s.leases && LeaseKept(s, x) :: s.leases[x]))
  }

  lemma SweptLinks(s: Loop)
    requires Links(s)
    ensures Links(Swept(s))
  {
    var t := Swept(s);
    forall i | 0 <= i < |t.conns|
      ensures ConnLinked(t, i)
    {
      assert ConnLinked(s, i);
    }
    forall r | 0 <= r < |t.roomAt|
      ensures SlotLinked(t, r, true) && SlotLinked(t, r, false)
    {
      assert SlotLinked(s, r, true) && SlotLinked(s, r, false);
    }
    forall k | 0 <= k < |t.chanAt|
      ensures SideLinked(t, k, true) && SideLinked(t, k, false)
    {
      assert SideLinked(s, k, true) && SideLinked(s, k, false);
    }
  }

  lemma SweptLeases(s: Loop)
    requires Leases(s)
    ensures Leases(Swept(s))
  {
    var t := Swept(s);
    forall x | x in t.leases
      ensures LeaseHeld(t, x)
    {
      assert LeaseHeld(s, x);
    }
    forall i: nat | Live(t, i) && t.conns[i].lease
      ensures t.conns[i].playerId > 0 && t.conns[i].playerId in t.leases && t.leases[t.conns[i].playerId] == i
    {
      assert Live(s, i);
    }
  }

  lemma SweptRest(s: Loop)
    requires Wakeups(s) && Channels(s) && RoomsOccupied(s)
    ensures Wakeups(Swept(s)) && Channels(Swept(s)) && RoomsOccupied(Swept(s))
  {
    var t := Swept(s);
    forall i | 0 <= i < |t.conns|
      ensures Awake(t, i)
    {
      assert Awake(s, i);
    }
    forall k | 0 <= k < |t.chanAt|
      ensures ChanSound(t, k)
    {
      assert ChanSound(s, k);
    }
    forall n | 0 <= n < |t.posts|
      ensures PostOk(t, t.posts[n])
    {
      assert PostOk(s, s.posts[n]);
    }
    forall r | 0 <= r < |t.roomAt| && RoomOpen(t, r)
      ensures t.roomAt[r].host.Some? || t.roomAt[r].guest.Some?
    {
      assert RoomOpen(s, r);
    }
  }

  lemma SweptCounts(s: Loop)
    requires Counts(s)
    ensures Counts(Swept(s))
  {
    assert s.chans == KeptChans(s) + (s.chans - KeptChans(s));
  }

  /** After the sweep the table is exactly the live connections, and a registered channel
      has two live sides or one whose closing the save under way will see to. */
  lemma SweptKeeps(s: Loop)
    requires Inv(s) && s.closing == {} && s.tearing == {}
    ensures Inv(Swept(s))
    ensures forall i :: i in Swept(s).table <==> Live(s, i)
    ensures forall k :: k in Swept(s).chans ==>
              var c := s.chanAt[k];
              (c.a.Some? && c.b.Some?) || (c.inflight && (c.a.Some? || c.b.Some? ==> c.survivorPending))
  {
    SweptLinks(s);
    SweptLeases(s);
    SweptRest(s);
    SweptCounts(s);
    forall k | k in Swept(s).chans
      ensures var c := s.chanAt[k];
              (c.a.Some? && c.b.Some?) || (c.inflight && (c.a.Some? || c.b.Some? ==> c.survivorPending))
    {
      assert ChanSound(s, k);
    }
  }

  lemma SweptStages(s: Loop)
    requires Stages(s, {})
    ensures Stages(Swept(s), {})
  {
    forall i | 0 <= i < |s.conns|
      ensures StageOk(Swept(s), i)
    {
      assert StageOk(s, i);
    }
  }
}
