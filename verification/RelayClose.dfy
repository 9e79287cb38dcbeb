/** Taking one connection out of the relay: what close_conn does to the state before it
    tells anyone, and the bookkeeping when it is done. */
module RelayClose {
  import opened Wrappers
  import opened Bytes
  import opened Framing
  import opened RelayState
  import opened RelaySteps

  /** Releasing one slot of a per-key count; the key disappears with its last slot. */
  function Release(m: map<seq<byte>, nat>, ip: seq<byte>): map<seq<byte>, nat> {
    if ip !in m then m else if m[ip] <= 1 then m - {ip} else m[ip := m[ip] - 1]
  }

  lemma ReleaseCount(m: map<seq<byte>, nat>, ip: seq<byte>)
    ensures forall x :: Count(Release(m, ip), x) ==
              if x == ip && Count(m, ip) > 0 then Count(m, ip) - 1 else Count(m, x)
  {}

  function Silenced(c: Conn): Conn {
    c.(stage := Dead, tx := [], onRead := false, onWrite := false, handshake := false, lease := false, room := None)
  }

  function Vacated(r: Room, host: bool): Room {
    if host then r.(host := None) else r.(guest := None)
  }

  /** The side is lost; whoever is lost first is remembered for the result notice. */
  function Abandoned(c: Channel, a: bool): Channel {
    var d := if a then c.(a := None) else c.(b := None);
    if c.disconnectSide == 0 then d.(disconnectSide := if a then 1 else 2) else d
  }

  function Gone(s: Loop, c: nat): Loop
    requires c < |s.conns|
  {
    var d := s.conns[c];
    var inRoom := d.room.Some? && d.room.value < |s.roomAt|;
    var inChan := d.ch.Some? && d.ch.value < |s.chanAt|;
    Hushed(s, c).(
       roomAt := if inRoom then s.roomAt[d.room.value := Vacated(s.roomAt[d.room.value], d.isHost)] else s.roomAt,
       chanAt := if inChan then s.chanAt[d.ch.value := Abandoned(s.chanAt[d.ch.value], d.isA)] else s.chanAt,
       tearing := if inChan then s.tearing + {d.ch.value} else s.tearing)
  }

  /** Dead, with everything it held given back. */
  function Hushed(s: Loop, c: nat): Loop
    requires c < |s.conns|
  {
    var d := s.conns[c];
    s.(conns := s.conns[c := Silenced(d)],
       txTotal := s.txTotal - |d.tx|,
       pendingAuth := s.pendingAuth - {c},
       sessions := Release(s.sessions, d.ip),
       handshakes := if d.handshake then Release(s.handshakes, d.ip) else s.handshakes,
       leases := if d.lease && !(d.ch.Some? && ChanOpen(s, d.ch.value)) then s.leases - {d.playerId} else s.leases,
       closing := s.closing + {c})
  }

  /** Nobody is kept from reading on c's account. */
  ghost predicate FeederReads(s: Loop, c: nat)
    requires c < |s.conns|
  {
    Feeder(s, c).Some? ==> Live(s, Feeder(s, c).value) && !s.conns[Feeder(s, c).value].readPaused
  }

  lemma GoneConnLinks(s: Loop, c: nat)
    requires Links(s) && Live(s, c)
    ensures forall i :: 0 <= i < |Gone(s, c).conns| ==> ConnLinked(Gone(s, c), i)
  {
    forall i | 0 <= i < |s.conns|
      ensures ConnLinked(Gone(s, c), i)
    {
      GoneConnLink(s, c, i);
    }
  }

  lemma GoneConnLink(s: Loop, c: nat, i: nat)
    requires Links(s) && Live(s, c) && i < |s.conns|
    ensures ConnLinked(Gone(s, c), i)
  {
    assert ConnLinked(s, c) && ConnLinked(s, i);
  }

  lemma GoneSlots(s: Loop, c: nat)
    requires Links(s) && Live(s, c)
    ensures |Gone(s, c).roomAt| == |s.roomAt|
    ensures forall r :: 0 <= r < |s.roomAt| ==> SlotLinked(Gone(s, c), r, true) && SlotLinked(Gone(s, c), r, false)
  {
    assert ConnLinked(s, c);
    forall r | 0 <= r < |s.roomAt|
      ensures SlotLinked(Gone(s, c), r, true) && SlotLinked(Gone(s, c), r, false)
    {
      assert SlotLinked(s, r, true) && SlotLinked(s, r, false);
    }
  }

  lemma GoneLinks(s: Loop, c: nat)
    requires Links(s) && Live(s, c)
    ensures Links(Gone(s, c))
  {
    var t := Gone(s, c);
    assert ConnLinked(s, c);
    GoneConnLinks(s, c);
    GoneSlots(s, c);
    forall k | 0 <= k < |t.chanAt|
      ensures SideLinked(t, k, true) && SideLinked(t, k, false)
    {
      assert SideLinked(s, k, true) && SideLinked(s, k, false);
    }
  }

  lemma GoneBuffers(s: Loop, c: nat)
    requires BuffersBut(s, c) && Live(s, c)
    ensures Buffers(Gone(s, c))
  {
    TxSumUpdate(s.conns, c, Silenced(s.conns[c]));
  }

  lemma GoneCounts(s: Loop, c: nat)
    requires Counts(s) && Tables(s) && Live(s, c)
    ensures Counts(Gone(s, c))
  {
    var t := Gone(s, c);
    var ip := s.conns[c].ip;
    assert LiveSet(t.conns) == LiveSet(s.conns) - {c};
    assert c !in s.closing;
    forall x
      ensures Count(t.sessions, x) == |LiveFrom(t.conns, x)| && Count(t.sessions, x) <= Count(s.sessions, x)
      ensures Count(t.handshakes, x) == |ShakingFrom(t.conns, x)| && Count(t.handshakes, x) <= Count(s.handshakes, x)
    {
      GoneCount(s, c, x);
    }
  }

  lemma GoneCount(s: Loop, c: nat, x: seq<byte>)
    requires Counts(s) && Live(s, c)
    ensures var t := Gone(s, c);
            Count(t.sessions, x) == |LiveFrom(t.conns, x)| && Count(t.sessions, x) <= Count(s.sessions, x) &&
            Count(t.handshakes, x) == |ShakingFrom(t.conns, x)| && Count(t.handshakes, x) <= Count(s.handshakes, x)
  {
    ReleaseCount(s.sessions, s.conns[c].ip);
    ReleaseCount(s.handshakes, s.conns[c].ip);
    GoneFrom(s, c, x);
  }

  lemma GoneFrom(s: Loop, c: nat, x: seq<byte>)
    requires Live(s, c)
    ensures LiveFrom(Gone(s, c).conns, x) ==
            if x == s.conns[c].ip then LiveFrom(s.conns, x) - {c} else LiveFrom(s.conns, x)
    ensures x == s.conns[c].ip ==> c in LiveFrom(s.conns, x)
    ensures ShakingFrom(Gone(s, c).conns, x) ==
            if x == s.conns[c].ip && s.conns[c].handshake then ShakingFrom(s.conns, x) - {c}
            else ShakingFrom(s.conns, x)
    ensures x == s.conns[c].ip && s.conns[c].handshake ==> c in ShakingFrom(s.conns, x)
  {}

  lemma GoneTables(s: Loop, c: nat)
    requires Tables(s) && Live(s, c)
    ensures Tables(Gone(s, c))
  {
    GoneLive(s, c);
    TablesAfter(s, Gone(s, c), c);
  }

  lemma TablesAfter(s: Loop, t: Loop, c: nat)
    requires Tables(s) && Live(s, c) && !Live(t, c) && |t.conns| == |s.conns|
    requires t.table == s.table && t.dying == s.dying && t.lim == s.lim
    requires t.closing == s.closing + {c} && t.pendingAuth == s.pendingAuth - {c}
    requires forall i: nat :: i != c && i < |s.conns| ==> t.conns[i] == s.conns[i]
    ensures Tables(t)
  {
    SmallerSet(t.pendingAuth, s.pendingAuth);
    forall i: nat
      ensures Live(t, i) <==> Live(s, i) && i != c
    {}
  }

  lemma GoneLive(s: Loop, c: nat)
    requires Live(s, c)
    ensures var t := Gone(s, c);
            |t.conns| == |s.conns| && t.table == s.table && t.dying == s.dying && t.lim == s.lim &&
            t.closing == s.closing + {c} && t.pendingAuth == s.pendingAuth - {c} && !Live(t, c) &&
            (forall i: nat :: i != c && i < |s.conns| ==> t.conns[i] == s.conns[i])
  {}

  lemma SmallerSet(a: set<nat>, b: set<nat>)
    requires a <= b
    ensures |a| <= |b|
  {
    assert b == a + (b - a);
  }

  lemma GoneLeases(s: Loop, c: nat)
    requires Leases(s) && Links(s) && Live(s, c)
    ensures Leases(Gone(s, c))
  {
    var t := Gone(s, c);
    assert ConnLinked(s, c);
    forall i: nat | Live(t, i) && t.conns[i].lease
      ensures t.conns[i].playerId > 0 && t.conns[i].playerId in t.leases && t.leases[t.conns[i].playerId] == i
    {
      assert Live(s, i);
    }
    forall x | x in t.leases
      ensures LeaseHeld(t, x)
    {
      assert LeaseHeld(s, x);
    }
  }

  /** Once nobody is paused on c's account, nobody's wake-up depends on c. */
  lemma GoneWakeups(s: Loop, c: nat)
    requires Links(s) && WakeupsBut(s, c) && Live(s, c)
    requires FeederReads(s, c)
    ensures Wakeups(Gone(s, c))
  {
    var t := Gone(s, c);
    forall i | 0 <= i < |t.conns|
      ensures Awake(t, i)
    {
      if i != c && s.conns[i].stage != Dead {
        assert AwakeBut(s, i, c);
        if s.conns[i].readPaused {
          FeederMutual(s, i);
          GoneFeeder(s, c, i);
        }
      }
    }
  }

  lemma GoneFeeder(s: Loop, c: nat, i: nat)
    requires Links(s) && Live(s, c) && Live(s, i) && i != c
    requires Feeder(s, i).Some? && Feeder(s, i) != Some(c)
    ensures Feeder(Gone(s, c), i) == Feeder(s, i)
  {
    assert ConnLinked(s, i) && ConnLinked(s, c);
  }

  lemma GoneOutputs(s: Loop, c: nat)
    requires OutputsBut(s, c) && Live(s, c)
    ensures Outputs(Gone(s, c))
  {}

  lemma GoneQueue(s: Loop, c: nat)
    requires QueueOk(s) && Live(s, c)
    ensures QueueOk(Gone(s, c))
  {}

  lemma GoneChannels(s: Loop, c: nat)
    requires Channels(s) && Links(s) && Live(s, c)
    ensures Channels(Gone(s, c))
  {
    var t := Gone(s, c);
    forall k | 0 <= k < |t.chanAt|
      ensures ChanSound(t, k)
    {
      assert ChanSound(s, k);
    }
    forall n | 0 <= n < |t.posts|
      ensures PostOk(t, t.posts[n])
    {
      assert PostOk(s, s.posts[n]);
    }
  }

  /** All invariants but "no registered room is empty" survive the departure itself. */
  ghost predicate InvVacant(s: Loop) {
    Links(s) && Buffers(s) && Counts(s) && Tables(s) && Leases(s) &&
    Wakeups(s) && Outputs(s) && QueueOk(s) && Channels(s)
  }

  lemma GoneKeeps(s: Loop, c: nat)
    requires InvBut(s, c) && Live(s, c)
    requires FeederReads(s, c)
    ensures InvVacant(Gone(s, c))
  {
    GoneLinks(s, c);
    GoneBuffers(s, c);
    GoneCounts(s, c);
    GoneTables(s, c);
    GoneLeases(s, c);
    GoneWakeups(s, c);
    GoneOutputs(s, c);
    GoneQueue(s, c);
    GoneChannels(s, c);
  }

  lemma UnpausedFeeder(s: Loop, c: nat)
    requires Links(s) && Live(s, c)
    ensures FeederReads(Paused(s, c, false), c)
  {
    if Feeder(s, c).Some? {
      FeederMutual(s, c);
    }
  }

  /** Rooms stay occupied, except for the one a lone occupant has just left. */
  lemma GoneRooms(s: Loop, c: nat)
    requires RoomsOccupied(s) && Links(s) && Live(s, c)
    ensures forall r :: 0 <= r < |Gone(s, c).roomAt| && RoomOpen(Gone(s, c), r) ==>
              Gone(s, c).roomAt[r].host.Some? || Gone(s, c).roomAt[r].guest.Some? || s.conns[c].room == Some(r)
  {
    forall r | 0 <= r < |Gone(s, c).roomAt| && RoomOpen(Gone(s, c), r)
      ensures Gone(s, c).roomAt[r].host.Some? || Gone(s, c).roomAt[r].guest.Some? || s.conns[c].room == Some(r)
    {
      assert RoomOpen(s, r);
    }
  }

  // ---------------------------------------------------------------- erasing a room

  function RoomErased(s: Loop, r: nat): Loop
    requires r < |s.roomAt|
  {
    s.(rooms := s.rooms - {s.roomAt[r].code})
  }

  lemma RoomErasedKeeps(s: Loop, r: nat)
    requires InvVacant(s) && RoomOpen(s, r)
    requires s.roomAt[r].host.None? && s.roomAt[r].guest.None?
    ensures InvVacant(RoomErased(s, r))
  {
    ErasedLinks(s, r);
    ErasedWakeups(s, r);
    ErasedLeases(s, r);
    ErasedChannels(s, r);
    SameLedger(s, RoomErased(s, r));
    SameTables(s, RoomErased(s, r));
  }

  lemma ErasedWakeups(s: Loop, r: nat)
    requires r < |s.roomAt| && Wakeups(s)
    ensures Wakeups(RoomErased(s, r))
  {
    forall i | 0 <= i < |s.conns|
      ensures Awake(RoomErased(s, r), i)
    {
      assert Awake(s, i);
    }
  }

  lemma ErasedLinks(s: Loop, r: nat)
    requires Links(s) && RoomOpen(s, r)
    requires s.roomAt[r].host.None? && s.roomAt[r].guest.None?
    ensures Links(RoomErased(s, r))
  {
    var t := RoomErased(s, r);
    forall i | 0 <= i < |t.conns|
      ensures ConnLinked(t, i)
    {
      assert ConnLinked(s, i);
    }
    forall q | 0 <= q < |t.roomAt|
      ensures SlotLinked(t, q, true) && SlotLinked(t, q, false)
    {
      assert SlotLinked(s, q, true) && SlotLinked(s, q, false);
    }
    forall k | 0 <= k < |t.chanAt|
      ensures SideLinked(t, k, true) && SideLinked(t, k, false)
    {
      assert SideLinked(s, k, true) && SideLinked(s, k, false);
    }
  }

  lemma ErasedLeases(s: Loop, r: nat)
    requires r < |s.roomAt| && Leases(s)
    ensures Leases(RoomErased(s, r))
  {
    var t := RoomErased(s, r);
    forall i: nat | Live(t, i) && t.conns[i].lease
      ensures t.conns[i].playerId > 0 && t.conns[i].playerId in t.leases && t.leases[t.conns[i].playerId] == i
    {
      assert Live(s, i);
    }
    forall x | x in t.leases
      ensures LeaseHeld(t, x)
    {
      assert LeaseHeld(s, x);
    }
  }

  lemma ErasedChannels(s: Loop, r: nat)
    requires r < |s.roomAt| && Channels(s)
    ensures Channels(RoomErased(s, r))
  {
    var t := RoomErased(s, r);
    forall k | 0 <= k < |t.chanAt|
      ensures ChanSound(t, k)
    {
      assert ChanSound(s, k);
    }
    forall n | 0 <= n < |s.posts|
      ensures PostOk(t, s.posts[n])
    {
      assert PostOk(s, s.posts[n]);
    }
  }

  // ---------------------------------------------------------------- the end of a close

  function Without(q: seq<nat>, c: nat): seq<nat> {
    if q == [] then []
    else if q[0] == c then q[1..]
    else [q[0]] + Without(q[1..], c)
  }

  ghost predicate Distinct(q: seq<nat>) {
    forall i, j :: 0 <= i < j < |q| ==> q[i] != q[j]
  }

  lemma DistinctTail(q: seq<nat>)
    requires Distinct(q) && q != []
    ensures Distinct(q[1..]) && q[0] !in q[1..]
    ensures forall x :: x in q <==> x == q[0] || x in q[1..]
  {
    assert forall i :: 0 <= i < |q[1..]| ==> q[1..][i] == q[i + 1];
  }

  lemma DistinctCons(x: nat, q: seq<nat>)
    requires Distinct(q) && x !in q
    ensures Distinct([x] + q)
    ensures forall y :: y in [x] + q <==> y == x || y in q
  {}

  lemma {:induction false} WithoutMembers(q: seq<nat>, c: nat)
    requires Distinct(q)
    ensures forall x :: x in Without(q, c) <==> x in q && x != c
    ensures Distinct(Without(q, c))
    ensures |Without(q, c)| <= |q|
  {
    if q != [] {
      DistinctTail(q);
      if q[0] != c {
        WithoutMembers(q[1..], c);
        DistinctCons(q[0], Without(q[1..], c));
      }
    }
  }

  /** The last lines of close_conn: out of the queue, onto the dying list, uncounted. */
  function Buried(s: Loop, c: nat, tearing: set<nat>): Loop {
    s.(queue := Without(s.queue, c), dying := s.dying + [c], connCount := s.connCount - 1,
       closing := s.closing - {c}, tearing := tearing)
  }

  lemma BuriedKeeps(s: Loop, c: nat, tearing: set<nat>)
    requires Inv(s) && c in s.closing
    requires forall k :: k in s.tearing && k !in tearing && ChanOpen(s, k) ==>
               (s.chanAt[k].a.Some? == s.chanAt[k].b.Some?) || (s.chanAt[k].inflight && s.chanAt[k].survivorPending)
    ensures Inv(Buried(s, c, tearing))
  {
    var t := Buried(s, c, tearing);
    BuriedPointers(s, c, tearing);
    assert Channels(t) by { BuriedChannels(s, c, tearing); }
    assert Tables(t) && QueueOk(t) && Counts(t) by { BuriedTables(s, c, tearing); }
    assert Buffers(t) && Outputs(t);
  }

  lemma BuriedTables(s: Loop, c: nat, tearing: set<nat>)
    requires Tables(s) && QueueOk(s) && Counts(s) && c in s.closing
    ensures var t := Buried(s, c, tearing);
            Tables(t) && QueueOk(t) && Counts(t)
  {
    WithoutMembers(s.queue, c);
  }

  lemma BuriedChannels(s: Loop, c: nat, tearing: set<nat>)
    requires Channels(s)
    requires forall k :: k in s.tearing && k !in tearing && ChanOpen(s, k) ==>
               (s.chanAt[k].a.Some? == s.chanAt[k].b.Some?) || (s.chanAt[k].inflight && s.chanAt[k].survivorPending)
    ensures Channels(Buried(s, c, tearing))
  {
    var t := Buried(s, c, tearing);
    forall k | 0 <= k < |t.chanAt|
      ensures ChanSound(t, k)
    {
      assert ChanSound(s, k);
    }
    forall n | 0 <= n < |t.posts|
      ensures PostOk(t, t.posts[n])
    {
      assert PostOk(s, s.posts[n]);
    }
  }

  lemma BuriedPointers(s: Loop, c: nat, tearing: set<nat>)
    requires Links(s) && Leases(s) && Wakeups(s) && RoomsOccupied(s)
    ensures Links(Buried(s, c, tearing)) && Leases(Buried(s, c, tearing))
    ensures Wakeups(Buried(s, c, tearing)) && RoomsOccupied(Buried(s, c, tearing))
  {
    var t := Buried(s, c, tearing);
    forall i | 0 <= i < |t.conns|
      ensures ConnLinked(t, i) && Awake(t, i)
    {
      assert ConnLinked(s, i) && Awake(s, i);
    }
    forall q | 0 <= q < |t.roomAt|
      ensures SlotLinked(t, q, true) && SlotLinked(t, q, false)
    {
      assert SlotLinked(s, q, true) && SlotLinked(s, q, false);
    }
    forall k | 0 <= k < |t.chanAt|
      ensures SideLinked(t, k, true) && SideLinked(t, k, false)
    {
      assert SideLinked(s, k, true) && SideLinked(s, k, false);
    }
    forall i: nat | Live(t, i) && t.conns[i].lease
      ensures t.conns[i].playerId > 0 && t.conns[i].playerId in t.leases && t.leases[t.conns[i].playerId] == i
    {
      assert Live(s, i);
    }
    forall x | x in t.leases
      ensures LeaseHeld(t, x)
    {
      assert LeaseHeld(s, x);
    }
    forall r | 0 <= r < |t.roomAt| && RoomOpen(t, r)
      ensures t.roomAt[r].host.Some? || t.roomAt[r].guest.Some?
    {
      assert RoomOpen(s, r);
    }
  }
}
