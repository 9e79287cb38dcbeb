/** server/reactor_relay.cpp: the single-threaded event loop that owns every socket.
    Sends accept any prefix or fail, reads deliver arbitrary bytes, timers may strike at any
    moment: nondeterministic choices of TcpSendSome, OffloadAccepts and the event script. */
module RelayLoop {
  import opened Wrappers
  import opened Bytes
  import opened Framing
  import opened Screening
  import opened ClientStream
  import opened RelayState
  import opened RelaySteps
  import opened RelayClose
  import opened RelayMatch
  import opened RelayFrame
  import opened RelayStages
  import opened RelayRooms
  import opened RelayHandling
  import opened RelayPath
  import P = QueuePath

  const STATUS_WAITING: byte := 0
  const STATUS_FULL: byte := 1
  const STATUS_NOT_FOUND: byte := 2
  const STATUS_GONE: byte := 3

  /** No 0, 1, I or O. */
  const CODE_ALPHABET: string := "ABCDEFGHJKLMNPQRSTUVWXYZ23456789"

  predicate InAlphabet(b: byte) { exists k :: 0 <= k < |CODE_ALPHABET| && CODE_ALPHABET[k] as int == b }

  predicate IsCode(code: seq<byte>) {
    |code| == CODE_LENGTH && forall i :: 0 <= i < |code| ==> InAlphabet(code[i])
  }

  const REASON_TX_BUDGET: byte := 4
  const REASON_AUTH_BACKLOG: byte := 5

  /** A frame built from any payload is a whole-frame string (empty if it could not be built). */
  lemma BuiltIsWhole(ty: byte, payload: seq<byte>)
    ensures WholeFrames(BuildFrame(ty, payload))
  {
    if |payload| <= MAX_PAYLOAD {
      BuildDecode(ty, payload);
      OneUnit(BuildFrame(ty, payload));
    } else {
      assert Split([]) == Cut([], [], true);
    }
  }

  /** A successful send: nobody died, the receiver's stream grew by exactly the data, every
      other stream is as it was. */
  ghost predicate Delivered(s: Loop, t: Loop, dst: nat, data: seq<byte>) {
    |t.conns| == |s.conns| && Live(s, dst) && LiveSet(t.conns) == LiveSet(s.conns) &&
    t.conns[dst].sent + t.conns[dst].tx == (s.conns[dst].sent + s.conns[dst].tx) + data &&
    (forall i :: 0 <= i < |s.conns| ==> t.conns[i].ready == s.conns[i].ready) &&
    forall i :: 0 <= i < |s.conns| && i != dst ==> t.conns[i].sent == s.conns[i].sent && t.conns[i].tx == s.conns[i].tx
  }

  lemma DeliveredQuiet(s: Loop, t: Loop, dst: nat, data: seq<byte>)
    requires Delivered(s, t, dst, data)
    ensures Quiet(s, t, {dst})
  {}

  lemma DeliveredSent(s: Loop, t: Loop, dst: nat, data: seq<byte>)
    requires Delivered(s, t, dst, data)
    ensures Sent(s, t, Some(dst), data)
  {}

  lemma DeliveredSpares(s: Loop, t: Loop, dst: nat, data: seq<byte>, x: set<nat>)
    requires Delivered(s, t, dst, data)
    ensures Spares(s, t, x)
  {
    forall i: nat | Live(s, i)
      ensures Live(t, i)
    {
      assert i in LiveSet(s.conns);
    }
  }

  lemma SentMore(s: Loop, t: Loop, u: Loop, p: nat, pushed: seq<byte>, data: seq<byte>)
    requires Sent(s, t, Some(p), pushed) && Delivered(t, u, p, data)
    ensures Sent(s, u, Some(p), pushed + data)
  {
    Associates(Stream(s, p), pushed, data);
  }

  function Refused(s: Loop): Loop { s.(refused := s.refused + 1) }

  lemma RefusedKeeps(s: Loop)
    requires Inv(s)
    ensures Inv(Refused(s)) && Evolves(s, Refused(s)) && Quiet(s, Refused(s), {})
  {
    EvolvesRefl(s);
    SameLoopParts(s, Refused(s));
    SameLedger(s, Refused(s));
    SameTables(s, Refused(s));
  }

  lemma RefusedSends(s: Loop, t: Loop, dst: Option<nat>)
    requires Inv(t) && Evolves(s, t) && Quiet(s, t, Only(dst))
    ensures Inv(Refused(t)) && Evolves(s, Refused(t)) && Quiet(s, Refused(t), Only(dst))
  {
    RefusedKeeps(t);
    EvolvesTrans(s, t, Refused(t));
  }

  // ---------------------------------------------------------------- facts about a send

  lemma TakenDelivers(s: Loop, i: nat, d: Conn, delta: int, data: seq<byte>)
    requires Live(s, i) && Takes(s.conns[i], d, data)
    ensures Delivered(s, Revised(s, i, d, delta), i, data)
  {
    assert LiveSet(Revised(s, i, d, delta).conns) == LiveSet(s.conns);
  }

  lemma TakenEvolves(s: Loop, i: nat, d: Conn, delta: int, data: seq<byte>)
    requires Live(s, i) && Takes(s.conns[i], d, data)
    ensures Evolves(s, Revised(s, i, d, delta))
  {
    PrefixOfSum(s.conns[i].sent + s.conns[i].tx, data);
    RevisedEvolves(s, i, d, delta);
  }

  lemma PrefixOfSum<T>(a: seq<T>, b: seq<T>)
    ensures a <= a + b
  {}

  /** Backpressure on the sender of a congested receiver disturbs nothing. */
  lemma PausedInv(s: Loop, d: nat)
    requires Inv(s) && Live(s, d) && |s.conns[d].tx| > SEND_HIGH_WATER
    ensures Inv(Paused(s, d, true)) && Evolves(s, Paused(s, d, true))
    ensures LiveSet(Paused(s, d, true).conns) == LiveSet(s.conns)
  {
    var t := Paused(s, d, true);
    PausedEvolves(s, d, true);
    assert Wakeups(t) by { PausedWakeups(s, d); }
    PausedSkeleton(s, d, true);
    PausedBuffers(s, d, true);
  }

  lemma PausedDelivered(s: Loop, t: Loop, d: nat, data: seq<byte>)
    requires Delivered(s, t, d, data) && d < |t.conns|
    ensures Delivered(s, Paused(t, d, true), d, data)
  {
    PausedTouched(t, d, true);
    PausedEvolves(t, d, true);
  }

  function Ascii(text: string): seq<byte> {
    if text == "" then [] else [text[0] as int % 256] + Ascii(text[1..])
  }

  /** build_reject: [reason][text_len][text], the text cut at 255 bytes. */
  function RejectFrame(reason: byte, text: seq<byte>): seq<byte> {
    var n := if |text| < 255 then |text| else 255;
    BuildFrame(SERVER_REJECT, [reason, n] + text[..n])
  }

  lemma RejectedKeeps(s: Loop, c: nat, d: Conn, delta: int)
    requires InvBut(s, c) && Live(s, c) && SameLinks(s.conns[c], d)
    requires |d.tx| == |s.conns[c].tx| + delta
    ensures InvBut(Revised(s, c, d, delta), c) && Live(Revised(s, c, d, delta), c)
    ensures LiveSet(Revised(s, c, d, delta).conns) == LiveSet(s.conns)
  {
    RevisedKeeps(s, c, d, delta);
    RevisedWakeupsBut(s, c, d, delta);
  }

  lemma RejectedSettles(s: Loop, d: Conn, delta: int, u: Loop, c: nat)
    requires Live(s, c) && d.stage != Dead
    requires Settles(Revised(s, c, d, delta), u) && !Live(u, c)
    ensures Settles(s, u)
  {
    RejectedEvolves(s, d, delta, u, c);
  }

  lemma RejectedSpares(s: Loop, d: Conn, delta: int, u: Loop, c: nat)
    requires Live(s, c) && SameLinks(s.conns[c], d)
    requires Spares(Revised(s, c, d, delta), u, Circle(Revised(s, c, d, delta), c))
    ensures Spares(s, u, Circle(s, c))
  {}

  lemma RejectedEvolves(s: Loop, d: Conn, delta: int, u: Loop, c: nat)
    requires Live(s, c) && d.stage != Dead
    requires Evolves(Revised(s, c, d, delta), u) && !Live(u, c)
    ensures Evolves(s, u)
  {
    var t := Revised(s, c, d, delta);
    forall i | 0 <= i < |s.conns|
      ensures ConnEvolves(s.conns[i], u.conns[i])
    {
      assert ConnEvolves(t.conns[i], u.conns[i]);
    }
    forall r | 0 <= r < |s.roomAt|
      ensures RoomEvolves(s.roomAt[r], u.roomAt[r])
    {
      assert RoomEvolves(t.roomAt[r], u.roomAt[r]);
    }
    forall k | 0 <= k < |s.chanAt|
      ensures ChanEvolves(s.chanAt[k], u.chanAt[k])
    {
      assert ChanEvolves(t.chanAt[k], u.chanAt[k]);
    }
  }

  // ---------------------------------------------------------------- facts about a close

  ghost predicate RoomsOccupiedBut(s: Loop, r: Option<nat>) {
    forall q :: 0 <= q < |s.roomAt| && RoomOpen(s, q) ==>
      s.roomAt[q].host.Some? || s.roomAt[q].guest.Some? || r == Some(q)
  }

  /** A departed connection's last ties: the slot it left and the channel being torn down. */
  ghost predicate Leaving(s: Loop, d: Conn) {
    InvVacant(s) && RoomsOccupiedBut(s, d.room) && !(d.room.Some? && d.ch.Some?) &&
    (d.room.Some? ==> d.room.value < |s.roomAt| && RoomOpen(s, d.room.value) &&
                      Slot(s.roomAt[d.room.value], d.isHost).None?) &&
    (d.ch.Some? ==> d.ch.value < |s.chanAt| && d.ch.value in s.tearing &&
                    Side(s.chanAt[d.ch.value], d.isA).None?)
  }

  lemma LeavingInv(s: Loop, d: Conn)
    requires Leaving(s, d) && d.room.None?
    ensures Inv(s)
  {}

  lemma DepartedLeaving(t: Loop, c: nat)
    requires InvBut(t, c) && Live(t, c) && FeederReads(t, c)
    ensures Leaving(Gone(t, c), t.conns[c])
  {
    var u := Gone(t, c);
    assert ConnLinked(t, c);
    assert InvVacant(u) by { GoneKeeps(t, c); }
    assert RoomsOccupiedBut(u, t.conns[c].room) by { GoneRooms(t, c); }
    DepartedTies(t, c);
  }

  lemma DepartedTies(t: Loop, c: nat)
    requires Links(t) && Live(t, c)
    ensures var d, u := t.conns[c], Gone(t, c);
            !(d.room.Some? && d.ch.Some?) &&
            (d.room.Some? ==> d.room.value < |u.roomAt| && RoomOpen(u, d.room.value) &&
                              Slot(u.roomAt[d.room.value], d.isHost).None?) &&
            (d.ch.Some? ==> d.ch.value < |u.chanAt| && d.ch.value in u.tearing &&
                            Side(u.chanAt[d.ch.value], d.isA).None?)
  {
    assert ConnLinked(t, c);
  }

  lemma DepartedQuiet(s: Loop, c: nat)
    requires Live(s, c)
    ensures Quiet(s, Gone(Paused(s, c, false), c), {})
  {
    var t := Paused(s, c, false);
    PausedTouched(s, c, false);
    forall i | 0 <= i < |s.conns| && Live(Gone(t, c), i)
      ensures Stream(Gone(t, c), i) == Stream(s, i)
    {
      assert i != c;
    }
  }

  lemma DepartedSent(s: Loop, c: nat)
    requires Live(s, c)
    ensures c < |Gone(Paused(s, c, false), c).conns| && Gone(Paused(s, c, false), c).conns[c].sent == s.conns[c].sent
  {
    PausedTouched(s, c, false);
  }

  lemma DepartedSpares(s: Loop, c: nat)
    requires Live(s, c)
    ensures var t := Paused(s, c, false);
            c < |t.conns| && Spares(s, Gone(t, c), {c}) && Mates(Gone(t, c), t.conns[c]) == Mates(s, s.conns[c])
  {
    var t := Paused(s, c, false);
    PausedSpares(s, c, false);
    GoneSpares(t, c);
    SparesTrans(s, t, Gone(t, c), {c}, {c}) by { assert Spares(s, t, {c}); }
  }

  /** ... and, afterwards, its partner at most. */
  lemma ClosedSpares(s: Loop, gone: Loop, t: Loop, u: Loop, c: nat, d: Conn)
    requires Live(s, c) && Spares(s, gone, {c}) && Mates(gone, d) == Mates(s, s.conns[c])
    requires Spares(gone, t, Mates(gone, d)) && u.conns == t.conns
    ensures Spares(s, u, Circle(s, c))
  {}

  /** One side of the match is gone already. */
  lemma LoneSide(s: Loop, d: Conn)
    requires Leaving(s, d) && d.room.None? && d.ch.Some?
    ensures Sides(s, d.ch.value) <= Mates(s, d)
  {}

  lemma SurvivorCircle(s: Loop, k: nat, a: bool)
    requires Links(s) && k < |s.chanAt| && Side(s.chanAt[k], a).Some? && Live(s, Side(s.chanAt[k], a).value)
    ensures Circle(s, Side(s.chanAt[k], a).value) <= Sides(s, k)
  {
    assert SideLinked(s, k, a) && ConnLinked(s, Side(s.chanAt[k], a).value);
  }

  lemma DepartedCounted(t: Loop, c: nat)
    requires Tables(t) && Live(t, c)
    ensures c !in t.closing && Gone(t, c).closing == t.closing + {c}
    ensures forall k :: k in Gone(t, c).tearing && k !in t.tearing ==> t.conns[c].ch == Some(k)
  {}

  lemma Departed(s: Loop, c: nat)
    requires InvBut(s, c) && Live(s, c)
    ensures var t := Paused(s, c, false);
            Live(t, c) && Leaving(Gone(t, c), t.conns[c]) && Evolves(s, Gone(t, c)) &&
            |LiveSet(Gone(t, c).conns)| < |LiveSet(s.conns)| &&
            Gone(t, c).closing == s.closing + {c} && c !in s.closing &&
            (forall k :: k in Gone(t, c).tearing && k !in s.tearing ==> t.conns[c].ch == Some(k))
  {
    var t := Paused(s, c, false);
    assert Live(t, c) && Leaving(Gone(t, c), t.conns[c]) by {
      PausedInvBut(s, c);
      UnpausedFeeder(s, c);
      DepartedLeaving(t, c);
    }
    assert Evolves(s, Gone(t, c)) && |LiveSet(Gone(t, c).conns)| < |LiveSet(s.conns)| by {
      PausedEvolves(s, c, false);
      GoneEvolves(t, c);
      EvolvesTrans(s, t, Gone(t, c));
    }
    assert Tables(t) by { PausedInvBut(s, c); }
    DepartedCounted(t, c);
  }

  /** The room is erased exactly when nobody is left in it. */
  function RoomSwept(s: Loop, r: nat): Loop
    requires r < |s.roomAt|
  {
    if s.roomAt[r].host.None? && s.roomAt[r].guest.None? then RoomErased(s, r) else s
  }

  lemma RoomSweptKeeps(s: Loop, t: Loop, r: nat)
    requires r < |s.roomAt| && RoomOpen(s, r) && Evolves(s, t)
    requires InvVacant(t) && RoomsOccupiedBut(t, Some(r))
    ensures Inv(RoomSwept(t, r)) && Evolves(s, RoomSwept(t, r))
  {
    EvolvesRoom(s, t, r);
    var u := RoomErased(t, r);
    RoomErasedEvolves(t, r);
    EvolvesTrans(s, t, u);
    if t.roomAt[r].host.None? && t.roomAt[r].guest.None? {
      EmptiedInv(t, r);
    }
  }

  lemma EmptiedVacant(t: Loop, r: nat)
    requires r < |t.roomAt| && InvVacant(t) && t.roomAt[r].host.None? && t.roomAt[r].guest.None?
    requires RoomOpen(t, r) || t.roomAt[r].code !in t.rooms
    ensures InvVacant(RoomErased(t, r))
  {
    if RoomOpen(t, r) { RoomErasedKeeps(t, r); } else { assert RoomErased(t, r) == t; }
  }

  lemma EmptiedInv(t: Loop, r: nat)
    requires r < |t.roomAt| && InvVacant(t) && RoomsOccupiedBut(t, Some(r))
    requires t.roomAt[r].host.None? && t.roomAt[r].guest.None?
    requires RoomOpen(t, r) || t.roomAt[r].code !in t.rooms
    ensures Inv(RoomErased(t, r))
  {
    var u := RoomErased(t, r);
    EmptiedVacant(t, r);
    forall q | 0 <= q < |u.roomAt| && RoomOpen(u, q)
      ensures u.roomAt[q].host.Some? || u.roomAt[q].guest.Some?
    {
      assert RoomOpen(t, q) && q != r;
    }
  }

  lemma OccupiedAgain(s: Loop, r: nat)
    requires InvVacant(s) && RoomsOccupiedBut(s, Some(r)) && r < |s.roomAt|
    requires s.roomAt[r].host.Some? || s.roomAt[r].guest.Some?
    ensures Inv(s)
  {}

  lemma SurvivorGone(s: Loop, t: Loop, k: nat, sv: Option<nat>)
    requires Evolves(s, t) && Links(s) && Links(t) && k < |s.chanAt|
    requires s.chanAt[k].a.None? || s.chanAt[k].b.None?
    requires sv == if s.chanAt[k].a.Some? then s.chanAt[k].a else s.chanAt[k].b
    requires sv.Some? ==> !Live(t, sv.value)
    ensures t.chanAt[k].a.None? && t.chanAt[k].b.None?
  {
    EvolvesChan(s, t, k);
    assert SideLinked(t, k, true) && SideLinked(t, k, false);
  }

  lemma SideIsLive(s: Loop, k: nat, a: bool)
    requires Links(s) && k < |s.chanAt| && Side(s.chanAt[k], a).Some?
    ensures Live(s, Side(s.chanAt[k], a).value)
  {
    assert SideLinked(s, k, a);
  }

  lemma SlotIsLive(s: Loop, r: nat, host: bool)
    requires Links(s) && r < |s.roomAt| && Slot(s.roomAt[r], host).Some?
    ensures Live(s, Slot(s.roomAt[r], host).value)
  {
    assert SlotLinked(s, r, host);
  }

  /** Withdrawing a READY disturbs nothing. */
  lemma UnreadyKeeps(s: Loop, i: nat, d: Conn)
    requires Inv(s) && Live(s, i) && s.conns[i].room.Some? && d == s.conns[i].(ready := false)
    ensures Inv(Revised(s, i, d, 0)) && Settles(s, Revised(s, i, d, 0))
    ensures LiveSet(Revised(s, i, d, 0).conns) == LiveSet(s.conns)
  {
    assert Inv(Revised(s, i, d, 0)) by {
      assert |d.rx| <= RX_CAP;
      RewrittenKeeps(s, i, d);
    }
    RevisedEvolves(s, i, d, 0);
  }

  lemma PeerLostEvolves(s: Loop, k: nat, queued: bool)
    requires k < |s.chanAt|
    ensures Evolves(s, PeerLost(s, k, queued))
  {
    var t := PeerLost(s, k, queued);
    EvolvesRefl(s);
    assert t == s || t == ChanRevised(s, k, t.chanAt[k], t.posts, s.tearing);
    ChanRevisedEvolves(s, k, t.chanAt[k], t.posts, s.tearing);
  }

  lemma PeerLostInv(s: Loop, k: nat, queued: bool)
    requires Inv(s) && k < |s.chanAt|
    ensures Inv(PeerLost(s, k, queued))
  {
    PeerLostKeeps(s, k, queued);
    PeerLostRooms(s, k, queued);
    SameRooms(s, PeerLost(s, k, queued));
  }

  lemma PeerLostRooms(s: Loop, k: nat, queued: bool)
    requires k < |s.chanAt|
    ensures PeerLost(s, k, queued).roomAt == s.roomAt && PeerLost(s, k, queued).rooms == s.rooms
  {}

  lemma SameRooms(s: Loop, t: Loop)
    requires RoomsOccupied(s) && t.roomAt == s.roomAt && t.rooms == s.rooms && InvVacant(t)
    ensures Inv(t)
  {
    forall r | 0 <= r < |t.roomAt| && RoomOpen(t, r)
      ensures t.roomAt[r].host.Some? || t.roomAt[r].guest.Some?
    {
      assert RoomOpen(s, r);
    }
  }

  lemma BuriedSettles(s: Loop, t: Loop, c: nat, torn: set<nat>)
    requires Settles(s, t) && QueueOk(t) && c < |t.conns| && !Live(t, c)
    ensures Settles(s, Buried(t, c, torn))
  {
    BuriedEvolves(t, c, torn);
    EvolvesTrans(s, t, Buried(t, c, torn));
  }

  lemma Buriable(s: Loop, c: nat, d: Conn, torn: set<nat>)
    requires Inv(s) && c < |s.conns| && !Live(s, c) && c in s.closing
    requires d.ch.Some? ==> d.ch.value < |s.chanAt| && TornDown(s, d.ch.value)
    requires forall k :: k in s.tearing && k !in torn ==> d.ch == Some(k)
    ensures Inv(Buried(s, c, torn))
  {
    BuriedKeeps(s, c, torn);
  }

  ghost predicate TornDown(s: Loop, k: nat)
    requires k < |s.chanAt|
  {
    (s.chanAt[k].a.Some? == s.chanAt[k].b.Some?) || (s.chanAt[k].inflight && s.chanAt[k].survivorPending)
  }

  class RelayLoop {
    const lim: Limits

    var conns: seq<Conn>
    var table: set<nat>
    var roomAt: seq<Room>
    var rooms: map<seq<byte>, nat>
    var chanAt: seq<Channel>
    var chans: set<nat>
    var queue: seq<nat>
    var dying: seq<nat>
    var pendingAuth: set<nat>
    var txTotal: int
    var connCount: int
    var matchCount: int
    var sessions: map<seq<byte>, nat>
    var handshakes: map<seq<byte>, nat>
    var leases: map<int, nat>
    var posts: seq<Post>

    ghost var closing: set<nat>
    ghost var tearing: set<nat>
    ghost var refused: nat

    ghost function Now(): Loop
      reads this
    {
      Loop(lim, conns, table, roomAt, rooms, chanAt, chans, queue, dying, pendingAuth,
           txTotal, connCount, matchCount, sessions, handshakes, leases, posts, closing, tearing, refused)
    }

    ghost function Alive(): nat
      reads this
    {
      |LiveSet(conns)|
    }

    // ---------------------------------------------------------------- environment

    /** tcp_send_some: fails, or takes any prefix. */
    method TcpSendSome(n: nat) returns (ok: bool, sent: nat)
      ensures sent <= n
    {
      ok := *;
      sent :| 0 <= sent <= n;
    }

    /** Whether the worker pool still accepts work. */
    method OffloadAccepts() returns (queued: bool)
    {
      queued := *;
    }

    // ---------------------------------------------------------------- backpressure

    function FeederOf(dst: nat): (f: Option<nat>)
      requires dst < |conns|
      reads this
      ensures f == Feeder(Now(), dst)
    {
      var c := conns[dst];
      if c.ch.Some? then
        if c.ch.value < |chanAt| then
          var ch := chanAt[c.ch.value];
          if ch.a == Some(dst) then ch.b else ch.a
        else None
      else if c.room.Some? then
        if c.room.value < |roomAt| then
          if c.isHost then roomAt[c.room.value].guest else roomAt[c.room.value].host
        else None
      else None
    }

    method PausePeerRead(dst: nat, pause: bool)
      requires dst < |conns|
      modifies this
      ensures Now() == Paused(old(Now()), dst, pause)
    {
      var f := FeederOf(dst);
      if f.None? || f.value >= |conns| || conns[f.value].stage == Dead { return; }
      var src := f.value;
      if conns[src].readPaused == pause { return; }
      conns := conns[src := conns[src].(readPaused := pause, onRead := !pause, onWrite := conns[src].wantWrite)];
    }

    // ---------------------------------------------------------------- closing

    /** The part of close_conn that marks the connection dead, gives back everything it held
        and takes it out of its room or channel. */
    method Depart(c: nat)
      requires Live(Now(), c)
      modifies this
      ensures Now() == Gone(old(Now()), c)
    {
      var d := conns[c];
      Hush(c);
      LeaveSlots(d);
    }

    /** Everything a closing connection holds is given back. */
    method Hush(c: nat)
      requires c < |conns|
      modifies this
      ensures Now() == Hushed(old(Now()), c)
    {
      var d := conns[c];
      conns := conns[c := Silenced(d)];
      txTotal := txTotal - |d.tx|;
      pendingAuth := pendingAuth - {c};
      closing := closing + {c};
      GiveBack(d);
    }

    method GiveBack(d: Conn)
      modifies this`handshakes, this`sessions, this`leases
      ensures handshakes == if d.handshake then Release(old(handshakes), d.ip) else old(handshakes)
      ensures sessions == Release(old(sessions), d.ip)
      ensures leases == if d.lease && !HasChannel(d) then old(leases) - {d.playerId} else old(leases)
    {
      handshakes := if d.handshake then Release(handshakes, d.ip) else handshakes;
      sessions := Release(sessions, d.ip);
      leases := if d.lease && !HasChannel(d) then leases - {d.playerId} else leases;
    }

    predicate HasChannel(d: Conn)
      reads this
    {
      d.ch.Some? && d.ch.value < |chanAt| && d.ch.value in chans
    }

    /** The slot of its room or the side of its channel no longer names the connection. */
    method LeaveSlots(d: Conn)
      modifies this`roomAt, this`chanAt, this`tearing
      ensures roomAt == if d.room.Some? && d.room.value < |old(roomAt)|
                        then old(roomAt)[d.room.value := Vacated(old(roomAt)[d.room.value], d.isHost)]
                        else old(roomAt)
      ensures chanAt == if d.ch.Some? && d.ch.value < |old(chanAt)|
                        then old(chanAt)[d.ch.value := Abandoned(old(chanAt)[d.ch.value], d.isA)]
                        else old(chanAt)
      ensures tearing == if d.ch.Some? && d.ch.value < |chanAt| then old(tearing) + {d.ch.value} else old(tearing)
    {
      if d.room.Some? && d.room.value < |roomAt| {
        roomAt := roomAt[d.room.value := Vacated(roomAt[d.room.value], d.isHost)];
      }
      if d.ch.Some? && d.ch.value < |chanAt| {
        chanAt := chanAt[d.ch.value := Abandoned(chanAt[d.ch.value], d.isA)];
        tearing := tearing + {d.ch.value};
      }
    }

    /** The end of close_conn. */
    method Bury(c: nat, ghost torn: set<nat>)
      modifies this
      ensures Now() == Buried(old(Now()), c, torn)
    {
      Retire(c);
      closing := closing - {c};
      tearing := torn;
    }

    method Retire(c: nat)
      modifies this`queue, this`dying, this`connCount
      ensures queue == Without(old(queue), c) && dying == old(dying) + [c] && connCount == old(connCount) - 1
    {
      queue := Without(queue, c);
      dying := dying + [c];
      connCount := connCount - 1;
    }

    method CloseConn(c: nat)
      requires c < |conns|
      requires if Live(Now(), c) then InvBut(Now(), c) else Inv(Now())
      modifies this
      ensures Inv(Now()) && Settles(old(Now()), Now()) && !Live(Now(), c) && conns[c].sent == old(conns[c].sent)
      ensures Spares(old(Now()), Now(), Circle(old(Now()), c))
      ensures closing == old(closing) && tearing == old(tearing)
      decreases Alive(), 1
    {
      EvolvesRefl(Now());
      if conns[c].stage == Dead { return; }
      ghost var s, torn := Now(), tearing;
      var d := Leave(c);
      ghost var gone := Now();
      TellPartner(d);
      ghost var t := Now();
      SettlesTrans(s, gone, t);
      Finish(c, d, torn, s, gone);
      ClosedSpares(s, gone, t, Now(), c, d);
    }

    /** Its partner is read again, and it goes. */
    method Leave(c: nat) returns (d: Conn)
      requires Live(Now(), c) && InvBut(Now(), c)
      modifies this
      ensures Leaving(Now(), d) && Settles(old(Now()), Now()) && c < |conns| && !Live(Now(), c)
      ensures conns[c].sent == old(conns[c].sent)
      ensures Spares(old(Now()), Now(), {c}) && Mates(Now(), d) == Mates(old(Now()), old(conns[c]))
      ensures Alive() < old(Alive()) && closing == old(closing) + {c} && c !in old(closing)
      ensures forall k :: k in tearing && k !in old(tearing) ==> d.ch == Some(k)
    {
      Departed(Now(), c);
      DepartedQuiet(Now(), c);
      DepartedSent(Now(), c);
      DepartedSpares(Now(), c);
      PausePeerRead(c, false);
      d := conns[c];
      Depart(c);
    }

    method Finish(c: nat, ghost d: Conn, ghost torn: set<nat>, ghost s: Loop, ghost gone: Loop)
      requires c < |s.conns| && Settles(s, Now()) && Evolves(gone, Now()) && Inv(Now())
      requires c < |gone.conns| && !Live(gone, c) && closing == gone.closing == s.closing + {c} && c !in s.closing
      requires d.ch.Some? ==> d.ch.value < |chanAt| && TornDown(Now(), d.ch.value)
      requires tearing == gone.tearing && forall k :: k in tearing && k !in torn ==> d.ch == Some(k)
      modifies this
      ensures Inv(Now()) && Settles(s, Now()) && !Live(Now(), c) && closing == s.closing && tearing == torn
      ensures conns[c].sent == gone.conns[c].sent && conns == old(conns)
    {
      EvolvesConn(gone, Now(), c);
      Buriable(Now(), c, d, torn);
      BuriedSettles(s, Now(), c, torn);
      Bury(c, torn);
    }

    method TellPartner(d: Conn)
      requires Leaving(Now(), d)
      modifies this
      ensures Inv(Now()) && Settles(old(Now()), Now()) && Spares(old(Now()), Now(), Mates(old(Now()), d))
      ensures closing == old(closing) && tearing == old(tearing)
      ensures d.ch.Some? ==> d.ch.value < |chanAt| && TornDown(Now(), d.ch.value)
      decreases Alive(), 6
    {
      // Nobody is in a room and in a match at once.
      if d.room.Some? {
        TellRoom(d.room.value, d.isHost);
      } else {
        LeavingInv(Now(), d);
        EvolvesRefl(Now());
        if d.ch.Some? {
          LoneSide(Now(), d);
          TellChannel(d.ch.value);
        }
      }
    }

    /** The partner stays in the room alone: it is told, and the room goes with its last
        occupant. */
    method TellRoom(r: nat, wasHost: bool)
      requires r < |roomAt| && RoomOpen(Now(), r) && Slot(roomAt[r], wasHost).None?
      requires InvVacant(Now()) && RoomsOccupiedBut(Now(), Some(r))
      modifies this
      ensures Inv(Now()) && Settles(old(Now()), Now())
      ensures Unready(old(Slot(roomAt[r], !wasHost)))
      ensures var peer, code := old(Slot(roomAt[r], !wasHost)), old(roomAt[r].code);
              peer.Some? ==> Heard(old(Now()), Now(), peer.value, RoomInfo(code, STATUS_GONE, 1))
      ensures Spares(old(Now()), Now(), Only(old(Slot(roomAt[r], !wasHost))))
      ensures closing == old(closing) && tearing == old(tearing)
      decreases Alive(), 5
    {
      ghost var s := Now();
      NotifyPartner(r, wasHost);
      SweepRoom(r, s);
    }

    /** Whoever stays behind in a room has to get ready again. */
    ghost predicate Unready(p: Option<nat>)
      reads this
    {
      p.Some? && p.value < |conns| ==> conns[p.value].stage == Dead || !conns[p.value].ready
    }

    method NotifyPartner(r: nat, wasHost: bool)
      requires r < |roomAt| && RoomOpen(Now(), r) && Slot(roomAt[r], wasHost).None?
      requires InvVacant(Now()) && RoomsOccupiedBut(Now(), Some(r))
      modifies this
      ensures InvVacant(Now()) && RoomsOccupiedBut(Now(), Some(r)) && Settles(old(Now()), Now())
      ensures Unready(old(Slot(roomAt[r], !wasHost)))
      ensures var peer, code := old(Slot(roomAt[r], !wasHost)), old(roomAt[r].code);
              peer.Some? ==> Heard(old(Now()), Now(), peer.value, RoomInfo(code, STATUS_GONE, 1))
      ensures Spares(old(Now()), Now(), Only(old(Slot(roomAt[r], !wasHost))))
      ensures |roomAt| == old(|roomAt|) && closing == old(closing) && tearing == old(tearing)
      decreases Alive(), 4, 2
    {
      EvolvesRefl(Now());
      var peer := if wasHost then roomAt[r].guest else roomAt[r].host;
      if peer.Some? && peer.value < |conns| && conns[peer.value].stage != Dead {
        OccupiedAgain(Now(), r);
        assert SlotLinked(Now(), r, !wasHost);
        NotifyAlone(peer.value, roomAt[r].code);
      }
    }

    method SweepRoom(r: nat, ghost s: Loop)
      requires r < |roomAt| && r < |s.roomAt| && RoomOpen(s, r) && Settles(s, Now())
      requires InvVacant(Now()) && RoomsOccupiedBut(Now(), Some(r))
      modifies this`rooms
      ensures Inv(Now()) && Settles(s, Now()) && conns == old(conns)
    {
      RoomSweptKeeps(s, Now(), r);
      EraseIfEmpty(r);
    }

    method NotifyAlone(peer: nat, code: seq<byte>)
      requires Inv(Now()) && Live(Now(), peer) && conns[peer].room.Some? && Mates(Now(), conns[peer]) == {}
      modifies this
      ensures Inv(Now()) && Settles(old(Now()), Now())
      ensures closing == old(closing) && tearing == old(tearing)
      ensures Unready(Some(peer)) && Heard(old(Now()), Now(), peer, RoomInfo(code, STATUS_GONE, 1))
      ensures Spares(old(Now()), Now(), {peer})
      decreases Alive(), 4, 1
    {
      ghost var s := Now();
      UnreadyKeeps(s, peer, conns[peer].(ready := false));
      SetReady(peer, false);
      ghost var t := Now();
      SendRoomInfo(peer, code, STATUS_GONE, 1);
      AloneSettles(s, t, Now(), peer, RoomInfo(code, STATUS_GONE, 1));
      AloneSpares(s, t, Now(), peer);
    }

    lemma AloneSpares(s: Loop, t: Loop, u: Loop, peer: nat)
      requires Live(s, peer) && t == Revised(s, peer, s.conns[peer].(ready := false), 0)
      requires Spares(t, u, Circle(t, peer)) && Mates(s, s.conns[peer]) == {}
      ensures Spares(s, u, {peer})
    {}

    lemma AloneSettles(s: Loop, t: Loop, u: Loop, peer: nat, frame: seq<byte>)
      requires peer < |s.conns| && t == Revised(s, peer, s.conns[peer].(ready := false), 0) && s.conns[peer].room.Some?
      requires Settles(s, t) && Evolves(t, u) && Quiet(t, u, {peer}) && Heard(t, u, peer, frame)
      ensures Settles(s, u) && Heard(s, u, peer, frame) && (u.conns[peer].stage == Dead || !u.conns[peer].ready)
    {
      EvolvesConn(t, u, peer);
      QuietRoom(t, u, peer);
      SettlesTrans(s, t, u);
    }

    method EraseIfEmpty(r: nat)
      requires r < |roomAt|
      modifies this`rooms
      ensures Now() == RoomSwept(old(Now()), r)
    {
      if roomAt[r].host.None? && roomAt[r].guest.None? {
        rooms := rooms - {roomAt[r].code};
      }
    }

    method SendRoomInfo(c: nat, code: seq<byte>, status: byte, peers: byte)
      requires Inv(Now()) && c < |conns|
      modifies this
      ensures Inv(Now()) && Evolves(old(Now()), Now()) && Quiet(old(Now()), Now(), {c})
      ensures Heard(old(Now()), Now(), c, RoomInfo(code, status, peers))
      ensures refused == old(refused) ==> Delivered(old(Now()), Now(), c, RoomInfo(code, status, peers))
      ensures Spares(old(Now()), Now(), Circle(old(Now()), c))
      ensures closing == old(closing) && tearing == old(tearing)
      decreases Alive(), 4, 0
    {
      var payload := [|code| % 256] + code + [status, peers];
      BuiltIsWhole(ROOM_INFO, payload);
      var _ := QueueSend(Some(c), BuildFrame(ROOM_INFO, payload));
    }

    function RoomInfo(code: seq<byte>, status: byte, peers: byte): seq<byte> {
      BuildFrame(ROOM_INFO, [|code| % 256] + code + [status, peers])
    }

    /** c is gone, or its stream has grown by the frame, or, if the send failed, not at all. */
    ghost predicate Heard(s: Loop, t: Loop, c: nat, frame: seq<byte>) {
      c < |s.conns| && Live(t, c) ==>
        Stream(t, c) == Stream(s, c) + frame || (s.refused < t.refused && Stream(t, c) == Stream(s, c))
    }

    method TellChannel(k: nat)
      requires k < |chanAt| && k in tearing && Inv(Now())
      requires chanAt[k].a.None? || chanAt[k].b.None?
      modifies this
      ensures Inv(Now()) && Settles(old(Now()), Now()) && Spares(old(Now()), Now(), old(Sides(Now(), k)))
      ensures closing == old(closing) && tearing == old(tearing)
      ensures k < |chanAt| && TornDown(Now(), k)
      decreases Alive(), 5
    {
      ghost var s := Now();
      var _ := OnChannelPeerLost(k);
      ghost var lost := Now();
      if chanAt[k].inflight {
        MarkSurvivor(k);
      } else {
        CloseChannelSurvivor(k);
      }
      SettlesTrans(s, lost, Now());
    }

    /** on_channel_peer_lost */
    method OnChannelPeerLost(k: nat) returns (queued: bool)
      requires k < |chanAt| && Inv(Now())
      modifies this
      ensures Inv(Now()) && Evolves(old(Now()), Now()) && conns == old(conns)
      ensures k < |chanAt| && SameSides(old(chanAt[k]), chanAt[k])
      ensures closing == old(closing) && tearing == old(tearing)
      ensures Now() == PeerLost(old(Now()), k, queued)
    {
      queued := OffloadAccepts();
      PeerLostEvolves(Now(), k, queued);
      PeerLostInv(Now(), k, queued);
      PeerLostSides(Now(), k, queued);
      SettlePeerLost(k, queued);
    }

    lemma PeerLostSides(s: Loop, k: nat, queued: bool)
      requires k < |s.chanAt|
      ensures var t := PeerLost(s, k, queued);
              t.conns == s.conns && t.closing == s.closing && t.tearing == s.tearing &&
              k < |t.chanAt| && SameSides(s.chanAt[k], t.chanAt[k])
    {
      SettledSides(s, k, queued);
    }

    lemma SettledSides(s: Loop, k: nat, queued: bool)
      requires k < |s.chanAt|
      ensures var t := Settled(s, k, queued);
              t.conns == s.conns && t.closing == s.closing && t.tearing == s.tearing &&
              |t.chanAt| == |s.chanAt| && SameSides(s.chanAt[k], t.chanAt[k]) && t.chanAt[k].handled &&
              t.chanAt[k].sumA == s.chanAt[k].sumA && t.chanAt[k].sumB == s.chanAt[k].sumB
    {}

    method SettlePeerLost(k: nat, queued: bool)
      requires k < |chanAt|
      modifies this`chanAt, this`posts
      ensures Now() == PeerLost(old(Now()), k, queued)
    {
      var c := chanAt[k];
      if c.ranked && !c.handled && !c.inflight {
        if c.sumA.None? && c.sumB.None? {
          chanAt := chanAt[k := c.(handled := true)];
        } else {
          Settle(k, queued);
        }
      }
    }

    /** finalize_ranked / finalize_forfeit: the verdict on the summaries at hand, posted by a
        worker; nothing is posted when the pool has stopped or there is no meta server. */
    method Settle(k: nat, queued: bool)
      requires k < |chanAt|
      modifies this`chanAt, this`posts
      ensures Now() == Settled(old(Now()), k, queued)
    {
      var c := chanAt[k];
      if lim.meta && queued {
        chanAt := chanAt[k := c.(handled := true, inflight := true)];
        posts := posts + [Post(k, c.sumA, c.sumB, Verdict(c))];
      } else {
        chanAt := chanAt[k := c.(handled := true)];
      }
    }

    method MarkSurvivor(k: nat)
      requires k < |chanAt| && Inv(Now()) && chanAt[k].inflight && (chanAt[k].a.None? || chanAt[k].b.None?)
      modifies this
      ensures Inv(Now()) && Now() == SurvivorMarked(old(Now()), k) && Settles(old(Now()), Now())
    {
      ghost var s := Now();
      SurvivorMarkedKeeps(s, k);
      RoomsUntouched(s, k, chanAt[k].(survivorPending := true), posts, tearing);
      ChanRevisedEvolves(s, k, chanAt[k].(survivorPending := true), posts, tearing);
      chanAt := chanAt[k := chanAt[k].(survivorPending := true)];
    }

    /** close_channel_survivor: the side that is left is told, if it was still waiting in the
        lobby, and closed. */
    method CloseChannelSurvivor(k: nat)
      requires k < |chanAt| && Inv(Now())
      requires chanAt[k].a.None? || chanAt[k].b.None?
      modifies this
      ensures Inv(Now()) && Settles(old(Now()), Now()) && Spares(old(Now()), Now(), old(Sides(Now(), k)))
      ensures closing == old(closing) && tearing == old(tearing)
      ensures k < |chanAt| && chanAt[k].a.None? && chanAt[k].b.None?
      decreases Alive(), 4
    {
      ghost var s := Now();
      EvolvesRefl(s);
      var sv := if chanAt[k].a.Some? then chanAt[k].a else chanAt[k].b;
      if sv.None? { return; }
      SideIsLive(s, k, chanAt[k].a.Some?);
      if conns[sv.value].stage == Dead { return; }
      SurvivorCircle(s, k, chanAt[k].a.Some?);
      DismissSurvivor(sv.value);
      SurvivorGone(s, Now(), k, sv);
    }

    method DismissSurvivor(sv: nat)
      requires Inv(Now()) && Live(Now(), sv)
      modifies this
      ensures Inv(Now()) && Settles(old(Now()), Now()) && !Live(Now(), sv)
      ensures Spares(old(Now()), Now(), Circle(old(Now()), sv))
      ensures closing == old(closing) && tearing == old(tearing)
      decreases Alive(), 3, 1
    {
      ghost var s := Now();
      EvolvesRefl(s);
      if conns[sv].stage == InLobby {
        BuiltIsWhole(READY, [0]);
        var _ := QueueSend(Some(sv), BuildFrame(READY, [0]));
      }
      ghost var t := Now();
      EvolvesLive(s, t);
      InvWeaken(t, sv);
      CloseConn(sv);
      DismissedSettles(s, t, Now(), sv);
      ThenCircle(s, t, Now(), sv);
    }

    lemma DismissedSettles(s: Loop, t: Loop, u: Loop, sv: nat)
      requires Evolves(s, t) && Quiet(s, t, {sv}) && Settles(t, u) && !Live(u, sv)
      ensures Settles(s, u)
    {
      EvolvesTrans(s, t, u);
      QuietTrans(s, t, u, {sv});
      QuietDead(s, u, {sv});
    }

    /** queue_send: send what the kernel takes, buffer the rest; a receiver over its own cap,
        or one more byte than the process may hold, is closed. */
    method QueueSend(dst: Option<nat>, data: seq<byte>) returns (ok: bool)
      requires Inv(Now()) && (dst.Some? ==> dst.value < |conns|)
      requires WholeFrames(data)
      modifies this
      ensures Inv(Now()) && Evolves(old(Now()), Now()) && Quiet(old(Now()), Now(), Only(dst))
      ensures closing == old(closing) && tearing == old(tearing)
      ensures OnFailure(old(Now()), Now(), CircleOf(old(Now()), dst))
      ensures !ok ==> old(refused) < refused
      ensures !ok ==> Now() == Refused(old(Now())) || (dst.Some? && !Live(Now(), dst.value))
      ensures ok ==> dst.Some? && Delivered(old(Now()), Now(), dst.value, data)
      decreases Alive(), 3, 0
    {
      ghost var s := Now();
      ok := TrySend(dst, data);
      if ok {
        DeliveredSpares(s, Now(), dst.value, data, {});
      } else {
        NoteRefusal(s, dst);
      }
    }

    method NoteRefusal(ghost s: Loop, ghost dst: Option<nat>)
      requires Inv(Now()) && Evolves(s, Now()) && Quiet(s, Now(), Only(dst))
      modifies this`refused
      ensures Now() == Refused(old(Now())) && Inv(Now()) && Evolves(s, Now()) && Quiet(s, Now(), Only(dst))
      ensures s.refused < refused
    {
      RefusedSends(s, Now(), dst);
      refused := refused + 1;
    }

    method TrySend(dst: Option<nat>, data: seq<byte>) returns (ok: bool)
      requires Inv(Now()) && (dst.Some? ==> dst.value < |conns|)
      requires WholeFrames(data)
      modifies this
      ensures Inv(Now()) && Evolves(old(Now()), Now()) && Quiet(old(Now()), Now(), Only(dst))
      ensures closing == old(closing) && tearing == old(tearing)
      ensures Spares(old(Now()), Now(), CircleOf(old(Now()), dst))
      ensures !ok ==> Now() == old(Now()) || (dst.Some? && !Live(Now(), dst.value))
      ensures ok ==> dst.Some? && Delivered(old(Now()), Now(), dst.value, data)
      decreases Alive(), 2, 4
    {
      EvolvesRefl(Now());
      if dst.None? || conns[dst.value].stage == Dead { return false; }
      var d, sent := dst.value, 0;
      if |conns[d].tx| == 0 {
        var taken: bool;
        taken, sent := TcpSendSome(|data|);
        if !taken { return false; }
      }
      ok := Accept(d, data, sent);
    }

    /** The rest of queue_send, once the kernel has taken its part. */
    method Accept(d: nat, data: seq<byte>, sent: nat) returns (ok: bool)
      requires Inv(Now()) && Live(Now(), d) && WholeFrames(data)
      requires sent <= |data| && (|conns[d].tx| == 0 || sent == 0)
      modifies this
      ensures Inv(Now()) && Evolves(old(Now()), Now()) && Quiet(old(Now()), Now(), {d})
      ensures closing == old(closing) && tearing == old(tearing)
      ensures Spares(old(Now()), Now(), Circle(old(Now()), d))
      ensures !ok ==> !Live(Now(), d)
      ensures ok ==> Delivered(old(Now()), Now(), d, data)
      decreases Alive(), 2, 3
    {
      ghost var s := Now();
      var c, added: nat := Buffering(conns[d], data, sent), |data| - sent;
      BufferingTakes(conns[d], data, sent);
      Accepting(s, d, c, added, data);
      Replace(d, c, added);
      ok := Judge(d, s, data, added > 0);
    }

    /** A connection's record and the process-wide total. */
    method Replace(i: nat, c: Conn, delta: int)
      requires i < |conns|
      modifies this`conns, this`txTotal
      ensures Now() == Revised(old(Now()), i, c, delta)
    {
      conns := conns[i := c];
      txTotal := txTotal + delta;
    }

    /** The receiver's buffer has taken the data; if some of it waits, the limits are checked. */
    method Judge(d: nat, ghost s: Loop, ghost data: seq<byte>, waits: bool) returns (ok: bool)
      requires TakenIn(s, Now(), d, data, waits)
      modifies this
      ensures Inv(Now()) && Evolves(s, Now()) && Quiet(s, Now(), {d})
      ensures closing == s.closing && tearing == s.tearing && Spares(s, Now(), Circle(s, d))
      ensures !ok ==> !Live(Now(), d)
      ensures ok ==> Delivered(s, Now(), d, data)
      decreases Alive(), 2, 2
    {
      if waits && (|conns[d].tx| > SEND_HARD_CAP || txTotal > lim.txBudget) {
        ghost var t := Now();
        Expel(d);
        EvolvesTrans(s, t, Now());
        DeliveredQuiet(s, t, d, data);
        DeliveredSpares(s, t, d, data, Circle(s, d));
        QuietTrans(s, t, Now(), {d});
        ThenCircle(s, t, Now(), d);
        return false;
      }
      if waits { Congest(d, s, data); }
      DeliveredQuiet(s, Now(), d, data);
      DeliveredSpares(s, Now(), d, data, Circle(s, d));
      ok := true;
    }

    /** t is s with the data in d's stream, perhaps over d's cap or over the budget. */
    ghost predicate TakenIn(s: Loop, t: Loop, d: nat, data: seq<byte>, waits: bool) {
      InvBut(t, d) && Live(t, d) && Delivered(s, t, d, data) && Evolves(s, t) &&
      t.closing == s.closing && t.tearing == s.tearing &&
      ((waits ==> |t.conns[d].tx| <= SEND_HARD_CAP && t.txTotal <= t.lim.txBudget) ==> Inv(t))
    }

    lemma Accepting(s: Loop, i: nat, d: Conn, added: nat, data: seq<byte>)
      requires Inv(s) && Live(s, i) && WholeFrames(data)
      requires Takes(s.conns[i], d, data) && |d.tx| == |s.conns[i].tx| + added
      ensures TakenIn(s, Revised(s, i, d, added), i, data, added > 0)
      ensures LiveSet(Revised(s, i, d, added).conns) == LiveSet(s.conns)
    {
      var t := Revised(s, i, d, added);
      assert InvBut(t, i) by { TakenKeeps(s, i, d, added, data); }
      TakenDelivers(s, i, d, added, data);
      TakenEvolves(s, i, d, added, data);
      if added > 0 ==> |d.tx| <= SEND_HARD_CAP && t.txTotal <= s.lim.txBudget {
        TakenInv(s, i, d, added, data);
      }
    }

    /** Past the high-water mark, whoever feeds the receiver is no longer read. */
    method Congest(d: nat, ghost s: Loop, ghost data: seq<byte>)
      requires Inv(Now()) && Live(Now(), d) && Evolves(s, Now()) && Delivered(s, Now(), d, data)
      modifies this
      ensures Inv(Now()) && Evolves(s, Now()) && Delivered(s, Now(), d, data)
      ensures closing == old(closing) && tearing == old(tearing)
      ensures Now() == if |old(conns[d].tx)| > SEND_HIGH_WATER then Paused(old(Now()), d, true) else old(Now())
    {
      if |conns[d].tx| > SEND_HIGH_WATER {
        ghost var t := Now();
        CongestedKeeps(s, t, d, data);
        PausePeerRead(d, true);
      }
    }

    lemma CongestedKeeps(s: Loop, t: Loop, d: nat, data: seq<byte>)
      requires Inv(t) && Live(t, d) && Evolves(s, t) && Delivered(s, t, d, data) && |t.conns[d].tx| > SEND_HIGH_WATER
      ensures Inv(Paused(t, d, true)) && Evolves(s, Paused(t, d, true)) && Delivered(s, Paused(t, d, true), d, data)
    {
      PausedInv(t, d);
      PausedDelivered(s, t, d, data);
      EvolvesTrans(s, t, Paused(t, d, true));
    }

    /** Over its own cap: closed; over the process's budget: told why, then closed. */
    method Expel(d: nat)
      requires InvBut(Now(), d) && Live(Now(), d)
      modifies this
      ensures Inv(Now()) && Settles(old(Now()), Now()) && !Live(Now(), d)
      ensures Spares(old(Now()), Now(), Circle(old(Now()), d))
      ensures closing == old(closing) && tearing == old(tearing)
      decreases Alive(), 2, 1
    {
      if |conns[d].tx| > SEND_HARD_CAP {
        CloseConn(d);
      } else {
        RejectConn(d, REASON_TX_BUDGET, Ascii("server memory budget exhausted"));
      }
    }

    /** reject_conn: the notice goes behind whatever is pending, one last send is tried, and
        the connection is closed. */
    method RejectConn(c: nat, reason: byte, text: seq<byte>)
      requires c < |conns|
      requires if Live(Now(), c) then InvBut(Now(), c) else Inv(Now())
      modifies this
      ensures Inv(Now()) && Settles(old(Now()), Now()) && !Live(Now(), c)
      ensures Spares(old(Now()), Now(), Circle(old(Now()), c))
      ensures old(Live(Now(), c)) ==> LastWords(old(conns[c]), conns[c], RejectFrame(reason, text))
      ensures closing == old(closing) && tearing == old(tearing)
      decreases Alive(), 2, 0
    {
      EvolvesRefl(Now());
      if conns[c].stage == Dead { return; }
      ghost var s := Now();
      ghost var n: nat;
      var d;
      d, n := Notified(conns[c], RejectFrame(reason, text));
      NotifiedWords(conns[c], RejectFrame(reason, text), n, d);
      var delta := |d.tx| - |conns[c].tx|;
      RejectedKeeps(s, c, d, delta);
      Replace(c, d, delta);
      CloseConn(c);
      RejectedSettles(s, d, delta, Now(), c);
      RejectedSpares(s, d, delta, Now(), c);
    }

    /** The kernel has taken some prefix of what was pending with the notice behind it. */
    ghost predicate LastWords(c: Conn, d: Conn, frame: seq<byte>) {
      c.sent <= d.sent && d.sent <= c.sent + (c.tx + frame)
    }

    /** The notice appended and pushed once. */
    method Notified(c: Conn, frame: seq<byte>) returns (d: Conn, ghost n: nat)
      ensures n <= |c.tx + frame| && d == Draining(c.(tx := c.tx + frame), n)
    {
      var ok, sent := TcpSendSome(|c.tx + frame|);
      if !ok { sent := 0; }
      n := sent;
      d := Draining(c.(tx := c.tx + frame), sent);
    }

    lemma NotifiedWords(c: Conn, frame: seq<byte>, n: nat, d: Conn)
      requires n <= |c.tx + frame| && d == Draining(c.(tx := c.tx + frame), n)
      ensures SameLinks(c, d) && LastWords(c, d, frame)
    {
      PrefixTaken(c.sent, c.tx + frame, n);
    }

    lemma PrefixTaken(sent: seq<byte>, pending: seq<byte>, n: nat)
      requires n <= |pending|
      ensures sent <= sent + pending[..n] && sent + pending[..n] <= sent + pending
    {
      assert sent + pending == (sent + pending[..n]) + pending[n..];
    }

    /** queue_send between two steps of a handler. */
    method Say(peer: Option<nat>, data: seq<byte>, ghost moving: set<nat>) returns (ok: bool)
      requires Working(Now(), moving) && TellablePeer(Now(), peer, moving) && WholeFrames(data)
      modifies this
      ensures Working(Now(), moving) && Sends(old(Now()), Now(), peer)
      ensures OnFailure(old(Now()), Now(), CircleOf(old(Now()), peer))
      ensures if ok then peer.Some? && Delivered(old(Now()), Now(), peer.value, data)
              else old(refused) < refused && MissedOut(old(Now()), Now(), peer)
    {
      ghost var s := Now();
      ok := QueueSend(peer, data);
      PeerWorking(s, Now(), peer, moving);
      if !ok { Missed(s, Now(), peer); }
    }

    lemma Missed(s: Loop, t: Loop, peer: Option<nat>)
      requires t == Refused(s) || (peer.Some? && !Live(t, peer.value))
      ensures MissedOut(s, t, peer)
    {}

    /** A send that failed changes nobody's readiness, unless its receiver is gone. */
    ghost predicate MissedOut(s: Loop, t: Loop, peer: Option<nat>) {
      SameReady(s, t) || (peer.Some? && !Live(t, peer.value))
    }

    ghost predicate SameReady(s: Loop, t: Loop) {
      |t.conns| == |s.conns| && forall i :: 0 <= i < |s.conns| ==> t.conns[i].ready == s.conns[i].ready
    }

    // ---------------------------------------------------------------- events: timer, writable

    /** close_conn as a handler's last act. */
    method Drop(c: nat, ghost moving: set<nat>)
      requires Working(Now(), moving) && c < |conns|
      modifies this
      ensures Working(Now(), moving - {c}) && Settles(old(Now()), Now()) && !Live(Now(), c)
      ensures conns[c].sent == old(conns[c].sent)
      ensures Spares(old(Now()), Now(), Circle(old(Now()), c))
    {
      ghost var s := Now();
      InvWeaken(s, c);
      CloseConn(c);
      SettlesWorking(s, Now(), moving);
      DeadIsPlaced(Now(), moving, c);
    }

    /** on_timeout: may strike any live connection at any moment.  A connection that waits for
        the queue or for authentication has no deadline; one we paused ourselves is spared as
        long as its partner can still release it. */
    method OnTimeout(c: nat)
      requires Steady(Now()) && Live(Now(), c)
      modifies this
      ensures Steady(Now()) && Settles(old(Now()), Now()) && Follows(old(Now()), Now())
      ensures if old(conns[c].stage) in {Auth, Queued} || old(Spared(Now(), c)) then Now() == old(Now())
              else !Live(Now(), c) && Spares(old(Now()), Now(), Circle(old(Now()), c))
    {
      ghost var s := Now();
      EvolvesRefl(s);
      match conns[c].stage {
        case FirstFrame => Drop(c, {});
        case InRoom => Drop(c, {});
        case InLobby => Drop(c, {});
        case Forwarding =>
          var peer := FeederOf(c);
          if !(conns[c].readPaused && peer.Some? && peer.value < |conns| &&
               conns[peer.value].stage == Forwarding && !conns[peer.value].readPaused) {
            Drop(c, {});
          }
        case _ =>
      }
      SettledFollows(s, Now());
    }

    /** Forwarding and paused on account of a partner that forwards and is read. */
    ghost predicate Spared(s: Loop, c: nat)
      requires c < |s.conns|
    {
      s.conns[c].stage == Forwarding && s.conns[c].readPaused &&
      Feeder(s, c).Some? && Feeder(s, c).value < |s.conns| &&
      s.conns[Feeder(s, c).value].stage == Forwarding && !s.conns[Feeder(s, c).value].readPaused
    }

    /** on_writable: push what is pending; when the backlog falls below the mark, whoever we
        stopped reading from is read again.  If the send fails, the connection is closed. */
    method OnWritable(c: nat)
      requires Steady(Now()) && Live(Now(), c)
      modifies this
      ensures Steady(Now()) && Settles(old(Now()), Now()) && Follows(old(Now()), Now())
      ensures old(|conns[c].tx|) == 0 ==> Now() == old(Now())
      ensures old(|conns[c].tx|) != 0 ==>
                if Live(Now(), c) then Relieved(old(Now()), Now(), c) else old(refused) < refused
      ensures OnFailure(old(Now()), Now(), Circle(old(Now()), c))
    {
      ghost var s := Now();
      EvolvesRefl(s);
      if |conns[c].tx| != 0 { PushPending(c); }
      SettledFollows(s, Now());
    }

    method PushPending(c: nat)
      requires Steady(Now()) && Live(Now(), c)
      modifies this
      ensures Steady(Now()) && Settles(old(Now()), Now())
      ensures if Live(Now(), c) then Relieved(old(Now()), Now(), c) else old(refused) < refused
      ensures OnFailure(old(Now()), Now(), Circle(old(Now()), c))
    {
      var ok, sent := TcpSendSome(|conns[c].tx|);
      if !ok {
        Break(c);
        return;
      }
      assert Awake(Now(), c);
      ghost var s := Now();
      var d := Drained(conns[c], sent);
      Relieve(c, d, -(sent as int));
      RelievedSpares(s, Now(), c);
    }

    lemma RelievedSpares(s: Loop, t: Loop, c: nat)
      requires Relieved(s, t, c)
      ensures OnFailure(s, t, {}) && (Live(s, c) ==> Live(t, c))
    {
      var d, delta :| DrainedTo(s, t, c, d, delta);
      var u := Revised(s, c, d, delta);
      assert OnFailure(s, u, {});
      PausedSpares(u, c, false);
    }

    /** Its socket has failed. */
    method Break(c: nat)
      requires Steady(Now()) && Live(Now(), c)
      modifies this
      ensures Steady(Now()) && Settles(old(Now()), Now()) && !Live(Now(), c)
      ensures old(refused) < refused && Spares(old(Now()), Now(), Circle(old(Now()), c))
    {
      ghost var s := Now();
      Drop(c, {});
      ghost var t := Now();
      NoteRefusal(s, None);
      RefusedKeeps(t);
      SettlesWorking(t, Now(), {});
    }

    method Drained(c: Conn, n: nat) returns (d: Conn)
      requires n <= |c.tx| && Tuned(c)
      ensures Drains(c, d) && |d.tx| == |c.tx| - n
    {
      d := Disarming(Draining(c, n));
      DrainingConn(c, n);
    }

    method Relieve(c: nat, d: Conn, delta: int)
      requires Steady(Now()) && Live(Now(), c) && Drains(conns[c], d) && |d.tx| == |conns[c].tx| + delta
      modifies this
      ensures Steady(Now()) && Settles(old(Now()), Now()) && Relieved(old(Now()), Now(), c)
    {
      ghost var s := Now();
      Replace(c, d, delta);
      ghost var t := Now();
      DrainedEvolves(s, c, d, delta);
      UnblockedQuiet(s, c, d, delta);
      if |conns[c].tx| <= SEND_HIGH_WATER {
        DrainedKeeps(s, c, d, delta);
        Resume(c);
        EvolvesTrans(s, t, Now());
      } else {
        DrainedAbove(s, c, d, delta);
      }
      SettlesWorking(s, Now(), {});
      assert DrainedTo(s, Now(), c, d, delta);
    }

    method Resume(c: nat)
      requires InvBut(Now(), c) && Live(Now(), c) && Awake(Now(), c) && Buffers(Now()) && Outputs(Now())
      modifies this
      ensures Inv(Now()) && Evolves(old(Now()), Now()) && Now() == Paused(old(Now()), c, false)
      ensures closing == old(closing) && tearing == old(tearing)
    {
      ResumedInv(Now(), c);
      PausePeerRead(c, false);
    }

    // ---------------------------------------------------------------- forwarding

    /** Since s, nothing has happened but sends: pushed to peer so far. */
    ghost predicate Pushing(s: Loop, peer: Option<nat>, pushed: seq<byte>)
      reads this
    {
      Inv(Now()) && Evolves(s, Now()) && closing == s.closing && tearing == s.tearing &&
      (peer.Some? ==> peer.value < |conns|) && Sent(s, Now(), peer, pushed)
    }

    /** A send failed: whoever it killed is closed and every invariant holds. */
    ghost predicate Halted(s: Loop, peer: Option<nat>)
      reads this
    {
      Inv(Now()) && Evolves(s, Now()) && closing == s.closing && tearing == s.tearing && Quiet(s, Now(), Only(peer)) &&
      Spares(s, Now(), CircleOf(s, peer))
    }

    /** Pushing a run of frames, if there is one. */
    method Push(peer: Option<nat>, data: seq<byte>, ghost s: Loop, ghost pushed: seq<byte>) returns (ok: bool)
      requires Pushing(s, peer, pushed) && WholeFrames(data)
      modifies this
      ensures Halted(s, peer) && (!ok ==> s.refused < refused)
      ensures ok ==> Pushing(s, peer, pushed + data)
    {
      ghost var t := Now();
      SentQuiet(s, t, peer, pushed);
      SameLiveSpares(s, t, CircleOf(s, peer));
      if |data| == 0 {
        assert pushed + data == pushed;
        return true;
      }
      ok := QueueSend(peer, data);
      if peer.Some? { ThenCircle(s, t, Now(), peer.value); }
      EvolvesTrans(s, t, Now());
      QuietTrans(s, t, Now(), Only(peer));
      if ok {
        SentMore(s, t, Now(), peer.value, pushed, data);
      }
    }

    /** forward_screened: pushes runs of adjacent surviving frames, skips server-only frames,
        drops the rest of the buffer at an oversized length. */
    method ForwardScreened(c: nat, peer: Option<nat>) returns (ok: bool)
      requires Steady(Now()) && Live(Now(), c) && (peer.Some? ==> peer.value < |conns|)
      requires Opponent(Now(), c) == peer && !InRanked(Now(), c) && conns[c].ch.Some?
      modifies this
      ensures Steady(Now()) && |conns| == old(|conns|)
      ensures if ok then OnFailure(old(Now()), Now(), {}) else Failed(old(Now()), Now(), c)
      ensures ok ==> Sent(old(Now()), Now(), peer, Out(false, old(conns[c].rx))) && Live(Now(), c) &&
                     conns[c].rx == Left(old(conns[c].rx))
      ensures if ok then Moves(old(Now()), Now(), c, P.OnForward(View(old(Now()), c)))
              else Fails(old(Now()), Now(), peer)
      ensures Calm(old(Now()), Now())
    {
      ghost var s := Now();
      var rx := conns[c].rx;
      var rest;
      ok, rest := ScreenAndPush(rx, peer);
      ScreenedSteady(s, Now(), c, peer);
      if ok {
        LeftShorter(rx);
        FinishScreen(c, peer, rest, s);
      }
    }

    method FinishScreen(c: nat, ghost peer: Option<nat>, rest: seq<byte>, ghost s: Loop)
      requires Steady(s) && Steady(Now()) && Drifts(s, Now()) && Live(s, c) && Opponent(s, c) == peer
      requires Sent(s, Now(), peer, Out(InRanked(s, c), s.conns[c].rx))
      requires rest == Left(s.conns[c].rx) && |rest| <= RX_CAP
      modifies this
      ensures Steady(Now()) && |conns| == |s.conns| && OnFailure(s, Now(), {})
      ensures Live(Now(), c) && conns[c].rx == Left(s.conns[c].rx)
      ensures Sent(s, Now(), peer, Out(InRanked(s, c), s.conns[c].rx))
      ensures Moves(s, Now(), c, P.OnForward(View(s, c))) && Calm(s, Now())
    {
      SameLive(s, Now(), c);
      KeepRest(c, peer, rest, s);
      SameLiveSpares(s, Now(), {});
    }

    /** Since s the buffer's frames were pushed to the opponent; what is left is kept. */
    method KeepRest(c: nat, ghost peer: Option<nat>, rest: seq<byte>, ghost s: Loop)
      requires Steady(s) && Steady(Now()) && Drifts(s, Now()) && Live(Now(), c) && c < |s.conns| &&
               Opponent(s, c) == peer
      requires Sent(s, Now(), peer, Out(InRanked(s, c), s.conns[c].rx))
      requires rest == Left(s.conns[c].rx) && |rest| <= RX_CAP
      modifies this
      ensures Steady(Now()) && |conns| == old(|conns|) && chanAt == old(chanAt) && refused == old(refused)
      ensures Live(Now(), c) && SameLinks(old(conns[c]), conns[c]) && conns[c].rx == Left(s.conns[c].rx)
      ensures Sent(s, Now(), peer, Out(InRanked(s, c), s.conns[c].rx))
      ensures Moves(s, Now(), c, P.OnForward(View(s, c))) && Calm(s, Now())
    {
      ghost var t := Now();
      SentRewritten(s, t, c, rest, peer, Out(InRanked(s, c), s.conns[c].rx));
      ForwardMoves(s, t, c, peer, conns[c].(rx := rest));
      DriftsCalm(s, t);
      SetRx(c, rest, {});
      CalmTrans(s, t, Now());
    }

    method ScreenAndPush(rx: seq<byte>, peer: Option<nat>) returns (ok: bool, rest: seq<byte>)
      requires Inv(Now()) && (peer.Some? ==> peer.value < |conns|)
      modifies this
      ensures Halted(old(Now()), peer) && (!ok ==> old(refused) < refused)
      ensures ok ==> Pushing(old(Now()), peer, Out(false, rx)) && rest == Left(rx)
    {
      ghost var s := Now();
      StartPushing(s, peer, rx);
      var pos: nat, sent: nat := 0, 0;
      ghost var pushed: seq<byte> := [];
      while pos + 2 <= |rx| && LengthAt(rx, pos) <= MAX_PAYLOAD + 1 && pos + LengthAt(rx, pos) + 6 <= |rx|
        invariant Pushing(s, peer, pushed) && RunIsWhole(rx, sent, pos)
        invariant ScreenFrom(false, rx, sent, pos, pushed) == Pipe(Left(rx), Out(false, rx))
        decreases |rx| - pos
      {
        ok, sent, pos, pushed := ScreenOne(rx, sent, pos, peer, s, pushed);
        if !ok { return false, rx; }
      }
      rest := if pos + 2 <= |rx| && LengthAt(rx, pos) > MAX_PAYLOAD + 1 then [] else rx[pos..];
      ok := Push(peer, rx[sent..pos], s, pushed);
    }

    /** One whole frame: it joins the run, or the run before it is pushed and it is skipped. */
    method ScreenOne(rx: seq<byte>, sent: nat, pos: nat, peer: Option<nat>, ghost s: Loop, ghost pushed: seq<byte>)
      returns (ok: bool, sent': nat, pos': nat, ghost pushed': seq<byte>)
      requires Pushing(s, peer, pushed) && RunIsWhole(rx, sent, pos)
      requires pos + 2 <= |rx| && LengthAt(rx, pos) <= MAX_PAYLOAD + 1 && pos + LengthAt(rx, pos) + 6 <= |rx|
      modifies this
      ensures Halted(s, peer) && (!ok ==> s.refused < refused)
      ensures ok ==> Pushing(s, peer, pushed') && RunIsWhole(rx, sent', pos') && pos < pos'
      ensures ok ==> ScreenFrom(false, rx, sent', pos', pushed') == ScreenFrom(false, rx, sent, pos, pushed)
    {
      var total := LengthAt(rx, pos) + 6;
      ok, sent', pos', pushed' := true, sent, pos + total, pushed;
      SentQuiet(s, Now(), peer, pushed);
      SameLiveSpares(s, Now(), CircleOf(s, peer));
      RunGrows(rx, sent, pos, pos');
      ScreenTurn(rx, sent, pos, pushed, total, pos');
      if total >= 7 && IsServerOnly(rx[pos + 2]) {
        ok := Push(peer, rx[sent..pos], s, pushed);
        pushed', sent' := pushed + rx[sent..pos], pos';
      }
    }

    lemma ScreenTurn(rx: seq<byte>, sent: nat, pos: nat, pushed: seq<byte>, n: nat, next: nat)
      requires sent <= pos && pos + 2 <= |rx| && LengthAt(rx, pos) <= MAX_PAYLOAD + 1
      requires n == LengthAt(rx, pos) + 6 && next == pos + n && next <= |rx|
      ensures ScreenFrom(false, rx, sent, pos, pushed) ==
              if n >= 7 && IsServerOnly(rx[pos + 2]) then ScreenFrom(false, rx, next, next, pushed + rx[sent..pos])
              else ScreenFrom(false, rx, sent, next, pushed)
    {
      ScanAt(rx, pos);
      ScreenFromUnfold(false, rx, sent, pos, pushed, n, next);
    }

    lemma StartPushing(s: Loop, peer: Option<nat>, rx: seq<byte>)
      requires s == Now() && Inv(s) && (peer.Some? ==> peer.value < |conns|)
      ensures Pushing(s, peer, []) && RunIsWhole(rx, 0, 0)
      ensures ScreenFrom(false, rx, 0, 0, []) == Pipe(Left(rx), Out(false, rx))
    {
      EvolvesRefl(s);
      SentNothing(s, peer);
      ScreenFromStart(false, rx);
      RunEmpty(rx, 0);
    }

    method SetRx(c: nat, rx: seq<byte>, ghost moving: set<nat>)
      requires Working(Now(), moving) && c < |conns| && |rx| <= RX_CAP
      modifies this
      ensures Working(Now(), moving) && Calm(old(Now()), Now())
      ensures Now() == Revised(old(Now()), c, old(conns[c]).(rx := rx), 0)
    {
      RewrittenWorking(Now(), c, conns[c].(rx := rx), moving);
      RevisedCalm(Now(), c, conns[c].(rx := rx), 0);
      Fill(c, rx);
    }

    /** Since s, c's buffer has been read up to some point: pushed went to the peer, got is
        the account taken. */
    ghost predicate Relaying(s: Loop, c: nat, k: nat, peer: Option<nat>, pushed: seq<byte>, got: Option<Summary>)
      reads this
    {
      Steady(Now()) && |conns| == |s.conns| && c < |conns| && Live(Now(), c) &&
      conns[c].ch == Some(k) && k < |chanAt| && k < |s.chanAt| &&
      conns[c].isA == s.conns[c].isA && conns[c].rx == s.conns[c].rx &&
      (peer.Some? ==> peer.value < |conns|) && Sent(s, Now(), peer, pushed) &&
      SumOf(chanAt[k], conns[c].isA) == got && Drifts(s, Now()) && Against(s, c, peer)
    }

    /** c is in a match, with peer on the other side. */
    ghost predicate Against(s: Loop, c: nat, peer: Option<nat>) {
      Links(s) && Live(s, c) && s.conns[c].ch.Some? && Opponent(s, c) == peer && TellablePeer(s, peer, {})
    }

    /** Since s a send has failed, over which c and its opponent may have been closed. */
    ghost predicate Failed(s: Loop, t: Loop, c: nat) { s.refused < t.refused && Spares(s, t, Circle(s, c)) }

    /** The ranked loop: MATCH_SUMMARY is taken out, server-only frames and frames without a
        type are skipped, every other frame is pushed by itself. */
    method ForwardRanked(c: nat, k: nat, peer: Option<nat>) returns (ok: bool)
      requires Steady(Now()) && Live(Now(), c) && conns[c].ch == Some(k) && k < |chanAt|
      requires peer.Some? ==> peer.value < |conns|
      requires Opponent(Now(), c) == peer && InRanked(Now(), c)
      modifies this
      ensures Steady(Now()) && |conns| == old(|conns|) && k < |chanAt|
      ensures if ok then OnFailure(old(Now()), Now(), {}) else Failed(old(Now()), Now(), c)
      ensures if ok then Moves(old(Now()), Now(), c, P.OnForward(View(old(Now()), c)))
              else Fails(old(Now()), Now(), peer)
      ensures ok ==> Live(Now(), c) && conns[c].isA == old(conns[c].isA) && conns[c].rx == Left(old(conns[c].rx))
      ensures ok ==> Sent(old(Now()), Now(), peer, Out(true, old(conns[c].rx)))
      ensures ok ==> SumOf(chanAt[k], conns[c].isA) ==
                     Keep(old(SumOf(chanAt[k], conns[c].isA)), FirstSummary(Split(old(conns[c].rx)).units))
      ensures Calm(old(Now()), Now())
    {
      ghost var s := Now();
      var rx := conns[c].rx;
      var pos;
      ghost var pushed, got;
      OpponentIsMatched(s, c);
      ok, pos, pushed, got := RankedLoop(c, k, rx, peer);
      if ok {
        StopRanked(c, k, rx, pos, peer, s, pushed, got);
        SameLiveSpares(s, Now(), {});
      } else {
        DriftsCalm(s, Now());
      }
    }

    method RankedLoop(c: nat, k: nat, rx: seq<byte>, peer: Option<nat>)
      returns (ok: bool, pos: nat, ghost pushed: seq<byte>, ghost got: Option<Summary>)
      requires Steady(Now()) && Live(Now(), c) && conns[c].ch == Some(k) && k < |chanAt| && rx == conns[c].rx
      requires Against(Now(), c, peer)
      modifies this
      ensures Steady(Now()) && |conns| == old(|conns|) && k < |chanAt| && Fails(old(Now()), Now(), peer)
      ensures !ok ==> Failed(old(Now()), Now(), c)
      ensures ok ==> pos <= |rx| && Relaying(old(Now()), c, k, peer, pushed, got)
      ensures ok ==> !(pos + 2 <= |rx| && LengthAt(rx, pos) <= MAX_PAYLOAD + 1 && pos + LengthAt(rx, pos) + 6 <= |rx|)
      ensures ok ==> RankedFrom(rx, pos, pushed) == Pipe(Left(rx), Out(true, rx))
      ensures ok ==> got == Keep(old(SumOf(chanAt[k], conns[c].isA)), FirstSummary(Split(rx).units))
    {
      ghost var s := Now();
      SentNothing(s, peer);
      SentQuiet(s, s, peer, []);
      RankedStart(rx, SumOf(chanAt[k], conns[c].isA));
      ok, pos, pushed, got := true, 0, [], SumOf(chanAt[k], conns[c].isA);
      while pos + 2 <= |rx| && LengthAt(rx, pos) <= MAX_PAYLOAD + 1 && pos + LengthAt(rx, pos) + 6 <= |rx|
        invariant pos <= |rx| && Relaying(s, c, k, peer, pushed, got) && Quiet(s, Now(), Only(peer))
        invariant RankedFrom(rx, pos, pushed) == Pipe(Left(rx), Out(true, rx))
        invariant SummaryFrom(rx, pos, got) ==
                  Keep(SumOf(s.chanAt[k], s.conns[c].isA), FirstSummary(Split(rx).units))
        decreases |rx| - pos
      {
        ok, pos, pushed, got := RankedOne(c, k, rx, pos, peer, s, pushed, got);
        if !ok { return; }
      }
    }

    /** What is left of the buffer after the last whole frame: nothing behind an oversized
        length, the unfinished frame otherwise. */
    method StopRanked(c: nat, k: nat, rx: seq<byte>, pos: nat, peer: Option<nat>,
                      ghost s: Loop, ghost pushed: seq<byte>, ghost got: Option<Summary>)
      requires Relaying(s, c, k, peer, pushed, got) && pos <= |rx|
      requires !(pos + 2 <= |rx| && LengthAt(rx, pos) <= MAX_PAYLOAD + 1 && pos + LengthAt(rx, pos) + 6 <= |rx|)
      requires RankedFrom(rx, pos, pushed) == Pipe(Left(rx), Out(true, rx)) && |rx| <= RX_CAP
      requires Steady(s) && Opponent(s, c) == peer && InRanked(s, c) && rx == s.conns[c].rx
      modifies this
      ensures Steady(Now()) && |conns| == old(|conns|) && k < |chanAt| && Live(Now(), c)
      ensures conns[c].isA == s.conns[c].isA && conns[c].rx == Left(rx)
      ensures Sent(s, Now(), peer, Out(true, rx)) && SumOf(chanAt[k], conns[c].isA) == got && Calm(s, Now())
      ensures Moves(s, Now(), c, P.OnForward(View(s, c))) && s.refused <= refused
    {
      var rest := if pos + 2 <= |rx| && LengthAt(rx, pos) > MAX_PAYLOAD + 1 then [] else rx[pos..];
      LeftShorter(rx);
      KeepRest(c, peer, rest, s);
    }

    lemma RankedStart(rx: seq<byte>, have: Option<Summary>)
      ensures RankedFrom(rx, 0, []) == Pipe(Left(rx), Out(true, rx))
      ensures SummaryFrom(rx, 0, have) == Keep(have, FirstSummary(Split(rx).units))
    {
      RankedFromStart(rx);
      SummaryFromIsFirst(rx, 0, have);
      assert rx[0..] == rx;
    }

    method RankedOne(c: nat, k: nat, rx: seq<byte>, pos: nat, peer: Option<nat>,
                     ghost s: Loop, ghost pushed: seq<byte>, ghost got: Option<Summary>)
      returns (ok: bool, pos': nat, ghost pushed': seq<byte>, ghost got': Option<Summary>)
      requires Relaying(s, c, k, peer, pushed, got)
      requires pos + 2 <= |rx| && LengthAt(rx, pos) <= MAX_PAYLOAD + 1 && pos + LengthAt(rx, pos) + 6 <= |rx|
      modifies this
      ensures Steady(Now()) && |conns| == old(|conns|) && k < |chanAt| && Fails(s, Now(), peer)
      ensures !ok ==> Failed(s, Now(), c)
      ensures ok ==> Relaying(s, c, k, peer, pushed', got') && pos < pos' <= |rx|
      ensures ok ==> RankedFrom(rx, pos', pushed') == RankedFrom(rx, pos, pushed)
      ensures ok ==> SummaryFrom(rx, pos', got') == SummaryFrom(rx, pos, got)
    {
      pos' := pos + LengthAt(rx, pos) + 6;
      RankedTurn(rx, pos, pos', pushed, got);
      ok, pushed', got' := RankedFrame(c, k, rx[pos..pos'], peer, s, pushed, got);
    }

    lemma RankedTurn(rx: seq<byte>, pos: nat, pos': nat, pushed: seq<byte>, got: Option<Summary>)
      requires pos + 2 <= |rx| && LengthAt(rx, pos) <= MAX_PAYLOAD + 1
      requires pos' == pos + LengthAt(rx, pos) + 6 && pos' <= |rx|
      ensures WholeFrames(rx[pos..pos']) && |rx[pos..pos']| >= 6
      ensures RankedFrom(rx, pos, pushed) == RankedFrom(rx, pos', pushed + Pushed(true, rx[pos..pos']))
      ensures SummaryFrom(rx, pos, got) == SummaryFrom(rx, pos', Keep(got, SummaryOf(rx[pos..pos'])))
    {
      ScanAt(rx, pos);
      var n := LengthAt(rx, pos) + 6;
      RankedUnfold(rx, pos, n, pos', pushed);
      SummaryUnfold(rx, pos, n, pos', got);
      RunOne(rx, pos, pos');
    }

    /** One frame of the ranked loop. */
    method RankedFrame(c: nat, k: nat, u: seq<byte>, peer: Option<nat>,
                       ghost s: Loop, ghost pushed: seq<byte>, ghost got: Option<Summary>)
      returns (ok: bool, ghost pushed': seq<byte>, ghost got': Option<Summary>)
      requires Relaying(s, c, k, peer, pushed, got) && WholeFrames(u) && |u| >= 6
      modifies this
      ensures Steady(Now()) && |conns| == old(|conns|) && k < |chanAt| && Fails(s, Now(), peer)
      ensures pushed' == pushed + Pushed(true, u) && got' == Keep(got, SummaryOf(u)) && (!ok ==> Failed(s, Now(), c))
      ensures ok ==> Relaying(s, c, k, peer, pushed', got')
    {
      ok, pushed', got' := true, pushed + Pushed(true, u), Keep(got, SummaryOf(u));
      SentQuiet(s, Now(), peer, pushed);
      if |u| < 7 || IsServerOnly(u[2]) {
        assert pushed' == pushed;
      } else if u[2] == MATCH_SUMMARY {
        assert pushed' == pushed;
        TakeSummary(c, k, SummaryOf(u), s, peer, pushed, got);
      } else {
        ok := PushFrame(c, k, u, s, peer, pushed, got);
      }
    }

    method TakeSummary(c: nat, k: nat, sum: Option<Summary>,
                       ghost s: Loop, ghost peer: Option<nat>, ghost pushed: seq<byte>, ghost got: Option<Summary>)
      requires Relaying(s, c, k, peer, pushed, got)
      modifies this
      ensures Relaying(s, c, k, peer, pushed, Keep(got, sum)) && |conns| == old(|conns|)
      ensures Quiet(s, Now(), Only(peer))
    {
      ghost var t := Now();
      SentQuiet(s, t, peer, pushed);
      AccountedKeeps(t, k, conns[c].isA, sum);
      AccountedSends(s, t, k, conns[c].isA, sum, peer, pushed);
      Account(k, conns[c].isA, sum);
    }

    lemma AccountedSends(s: Loop, t: Loop, k: nat, a: bool, sum: Option<Summary>, peer: Option<nat>, pushed: seq<byte>)
      requires k < |t.chanAt| && Drifts(s, t) && Sent(s, t, peer, pushed) && Quiet(s, t, Only(peer))
      ensures var u := Accounted(t, k, a, sum);
              Drifts(s, u) && Sent(s, u, peer, pushed) && Quiet(s, u, Only(peer))
    {
      AccountedDrifts(t, k, a, sum);
      DriftsTrans(s, t, Accounted(t, k, a, sum));
    }

    lemma AccountedDrifts(s: Loop, k: nat, a: bool, sum: Option<Summary>)
      requires k < |s.chanAt|
      ensures Drifts(s, Accounted(s, k, a, sum))
    {}

    method Account(k: nat, a: bool, sum: Option<Summary>)
      requires k < |chanAt|
      modifies this`chanAt
      ensures Now() == Accounted(old(Now()), k, a, sum)
    {
      chanAt := chanAt[k := WithSum(chanAt[k], a, sum)];
    }

    method PushFrame(c: nat, k: nat, u: seq<byte>,
                     ghost s: Loop, peer: Option<nat>, ghost pushed: seq<byte>, ghost got: Option<Summary>)
      returns (ok: bool)
      requires Relaying(s, c, k, peer, pushed, got) && WholeFrames(u)
      modifies this
      ensures Steady(Now()) && |conns| == old(|conns|) && k < |chanAt| && Fails(s, Now(), peer)
      ensures if ok then Relaying(s, c, k, peer, pushed + u, got) else Failed(s, Now(), c)
    {
      ghost var t := Now();
      SentQuiet(s, t, peer, pushed);
      DriftsTellable(s, t, peer, {});
      ok := Say(peer, u, {});
      ghost var v := Now();
      FailsEvolves(s, t, v, peer);
      EvolvesChan(t, v, k);
      if ok {
        FramePushed(s, t, v, c, peer.value, pushed, u);
      } else {
        PushFailed(s, t, v, c, peer, pushed);
      }
      assert Steady(Now()) && Fails(s, Now(), peer);
    }

    lemma PushFailed(s: Loop, t: Loop, u: Loop, c: nat, peer: Option<nat>, pushed: seq<byte>)
      requires Against(s, c, peer) && Drifts(s, t) && Links(t) && Sent(s, t, peer, pushed)
      requires Spares(t, u, CircleOf(t, peer)) && t.refused < u.refused
      ensures Failed(s, u, c)
    {
      OpponentCircle(s, t, c, peer);
      SameLiveSpares(s, t, Circle(s, c));
      SparesTrans(s, t, u, Circle(s, c), CircleOf(t, peer));
    }

    lemma FramePushed(s: Loop, t: Loop, u: Loop, c: nat, p: nat, pushed: seq<byte>, data: seq<byte>)
      requires Sent(s, t, Some(p), pushed) && Delivered(t, u, p, data) && Evolves(t, u) && Live(t, c)
      ensures Sent(s, u, Some(p), pushed + data) && Live(u, c)
      ensures u.conns[c].ch == t.conns[c].ch && u.conns[c].isA == t.conns[c].isA && u.conns[c].rx == t.conns[c].rx
    {
      SentMore(s, t, u, p, pushed, data);
      SameLive(t, u, c);
      EvolvesConn(t, u, c);
    }

    /** on_forward: screens the buffer towards the opponent; in a ranked match also collects
        the players' summaries and settles the outcome when both are in.  If the opponent
        cannot take the bytes it is closed (or, with no opponent left, the sender). */
    method OnForward(c: nat) returns (ghost done: bool)
      requires Steady(Now()) && Live(Now(), c) && conns[c].ch.Some? && ChanOpen(Now(), conns[c].ch.value)
      modifies this
      ensures Steady(Now()) && |conns| == old(|conns|)
      ensures done ==>
                var rx, k := old(conns[c].rx), old(conns[c].ch.value);
                var peer := old(Side(chanAt[k], !conns[c].isA));
                Live(Now(), c) && conns[c].rx == Left(rx) &&
                Sent(old(Now()), Now(), peer, Out(old(chanAt[k].ranked), rx))
      ensures done && old(chanAt[conns[c].ch.value].ranked) ==>
                var k := old(conns[c].ch.value);
                k < |chanAt| && Collected(old(chanAt[k]), chanAt[k], old(conns[c].isA), old(conns[c].rx))
      ensures !done ==>
                var peer := old(Side(chanAt[conns[c].ch.value], !conns[c].isA));
                !Live(Now(), if peer.Some? then peer.value else c)
      ensures OnFailure(old(Now()), Now(), Circle(old(Now()), c)) && (!done ==> old(refused) < refused)
      ensures Moves(old(Now()), Now(), c, P.OnForward(View(old(Now()), c))) && Calm(old(Now()), Now())
    {
      ghost var s := Now();
      var k := conns[c].ch.value;
      var peer := Side(chanAt[k], !conns[c].isA);
      if peer.Some? { SideIsLive(s, k, !conns[c].isA); }
      var ok := ForwardBytes(c, k, peer);
      if !ok { DropFailed(c, peer, s); }
      done := ok;
    }

    /** Whoever could not take the bytes is closed; without an opponent, the sender. */
    method DropFailed(c: nat, peer: Option<nat>, ghost s: Loop)
      requires Steady(s) && Steady(Now()) && c < |conns| && (peer.Some? ==> peer.value < |conns|)
      requires Live(s, c) && Opponent(s, c) == peer && Fails(s, Now(), peer)
      requires s.conns[c].ch.Some? && Failed(s, Now(), c)
      modifies this
      ensures Failed(s, Now(), c)
      ensures Steady(Now()) && |conns| == old(|conns|) && !Live(Now(), if peer.Some? then peer.value else c)
      ensures Moves(s, Now(), c, P.OnForward(View(s, c))) && Calm(s, Now())
    {
      ghost var t := Now();
      OpponentCircle(s, t, c, peer);
      Drop(if peer.Some? then peer.value else c, {});
      SparesTrans(s, t, Now(), Circle(s, c), Circle(t, if peer.Some? then peer.value else c));
      FailsThen(s, t, Now(), peer);
      FailedMoves(s, Now(), c, peer, P.OnForward(View(s, c)));
      DriftsCalm(s, Now());
    }

    /** The first good MATCH_SUMMARY of the buffer is kept as the side's account, and with both
        accounts in the outcome is decided. */
    ghost predicate Collected(before: Channel, after: Channel, a: bool, rx: seq<byte>) {
      SumOf(after, a) == Keep(SumOf(before, a), FirstSummary(Split(rx).units)) &&
      (after.sumA.Some? && after.sumB.Some? ==> after.handled)
    }

    method ForwardBytes(c: nat, k: nat, peer: Option<nat>) returns (ok: bool)
      requires Steady(Now()) && Live(Now(), c) && conns[c].ch == Some(k) && k < |chanAt|
      requires (peer.Some? ==> peer.value < |conns|) && Opponent(Now(), c) == peer
      modifies this
      ensures Steady(Now()) && |conns| == old(|conns|)
      ensures if ok then OnFailure(old(Now()), Now(), {}) else Failed(old(Now()), Now(), c)
      ensures if ok then Moves(old(Now()), Now(), c, P.OnForward(View(old(Now()), c)))
              else Fails(old(Now()), Now(), peer)
      ensures ok ==> Live(Now(), c) && conns[c].rx == Left(old(conns[c].rx))
      ensures ok ==> Sent(old(Now()), Now(), peer, Out(old(chanAt[k].ranked), old(conns[c].rx)))
      ensures ok && old(chanAt[k].ranked) ==>
                k < |chanAt| && Collected(old(chanAt[k]), chanAt[k], old(conns[c].isA), old(conns[c].rx))
      ensures Calm(old(Now()), Now())
    {
      ghost var s := Now();
      if chanAt[k].ranked {
        ok := ForwardRanked(c, k, peer);
        if ok { Decided(c, k, peer, s, P.OnForward(View(s, c)), Out(true, s.conns[c].rx)); }
      } else {
        ok := ForwardScreened(c, peer);
      }
    }

    /** finalize_ranked, which no player notices. */
    method Decided(c: nat, k: nat, ghost peer: Option<nat>, ghost s: Loop, ghost l: P.Link, ghost x: seq<byte>)
      requires Steady(Now()) && c < |conns| && k < |chanAt| && Calm(s, Now()) && Moves(s, Now(), c, l)
      requires OnFailure(s, Now(), {}) && Sent(s, Now(), peer, x)
      modifies this`chanAt, this`posts
      ensures Steady(Now()) && k < |chanAt| && Calm(s, Now()) && Moves(s, Now(), c, l)
      ensures OnFailure(s, Now(), {}) && Sent(s, Now(), peer, x) && conns == old(conns)
      ensures chanAt[k].sumA == old(chanAt[k].sumA) && chanAt[k].sumB == old(chanAt[k].sumB)
      ensures chanAt[k].sumA.Some? && chanAt[k].sumB.Some? ==> chanAt[k].handled
    {
      ghost var t := Now();
      var queued := FinalizeRanked(k);
      DecidedUnseen(s, t, Now(), c, k, queued, peer, l, x);
    }

    lemma DecidedUnseen(s: Loop, t: Loop, u: Loop, c: nat, k: nat, queued: bool, peer: Option<nat>, l: P.Link,
                        x: seq<byte>)
      requires k < |t.chanAt| && (u == t || u == Settled(t, k, queued)) && Calm(t, u)
      requires Calm(s, t) && Moves(s, t, c, l) && OnFailure(s, t, {}) && Sent(s, t, peer, x)
      ensures Calm(s, u) && Moves(s, u, c, l) && OnFailure(s, u, {}) && Sent(s, u, peer, x)
    {
      DecidedStays(t, u, k, queued);
      MovesThen(s, t, u, c, l);
      CalmTrans(s, t, u);
      SettledSides(t, k, queued);
    }

    lemma DecidedStays(s: Loop, t: Loop, k: nat, queued: bool)
      requires k < |s.chanAt| && (t == s || t == Settled(s, k, queued))
      ensures forall i: nat :: Stays(s, t, i)
    {
      forall i: nat
        ensures Stays(s, t, i)
      {
        SettledSides(s, k, queued);
        SameSidesView(s, t, i);
      }
    }

    /** Both summaries in and nothing decided yet: settle by cross-check. */
    method FinalizeRanked(k: nat) returns (queued: bool)
      requires Steady(Now()) && k < |chanAt|
      modifies this`chanAt, this`posts
      ensures Steady(Now()) && |chanAt| == old(|chanAt|)
      ensures Now() == if old(chanAt[k].sumA.Some? && chanAt[k].sumB.Some? && !chanAt[k].handled)
                       then Settled(old(Now()), k, queued) else old(Now())
      ensures chanAt[k].sumA == old(chanAt[k].sumA) && chanAt[k].sumB == old(chanAt[k].sumB)
      ensures chanAt[k].sumA.Some? && chanAt[k].sumB.Some? ==> chanAt[k].handled
      ensures Calm(old(Now()), Now())
    {
      queued := OffloadAccepts();
      if chanAt[k].sumA.Some? && chanAt[k].sumB.Some? && !chanAt[k].handled {
        SettledCalm(Now(), k, queued);
        SettledSteady(Now(), k, queued);
        SettledSides(Now(), k, queued);
        Settle(k, queued);
      }
    }

    /** begin_forwarding: both sides enter the forwarding stage, and what they have already
        sent is forwarded at once. */
    method BeginForwarding(k: nat, ghost moving: set<nat>)
      requires Working(Now(), moving) && CanForward(Now(), k) && ChanOpen(Now(), k)
      requires moving <= {chanAt[k].a.value, chanAt[k].b.value}
      requires Startable(Now(), chanAt[k].a.value) && Startable(Now(), chanAt[k].b.value)
      modifies this
      ensures Steady(Now()) && |conns| == old(|conns|) && |chanAt| == old(|chanAt|)
      ensures Forwards(Now(), old(chanAt[k].a.value)) && Forwards(Now(), old(chanAt[k].b.value))
      ensures chanAt[k].a.Some? ==> chanAt[k].a == old(chanAt[k].a)
      ensures chanAt[k].b.Some? ==> chanAt[k].b == old(chanAt[k].b)
      ensures var a, b := old(chanAt[k].a.value), old(chanAt[k].b.value);
              Reads2(old(Now()), Now(), a, P.Step(View(old(Now()), a), P.Started),
                     b, P.Step(View(old(Now()), b), P.Started))
      ensures SameMatch(old(Now()), Now()) && SameHouse(old(Now()), Now())
      ensures OnFailure(old(Now()), Now(), old(Sides(Now(), k)))
    {
      ghost var was := Now();
      var a, b := chanAt[k].a.value, chanAt[k].b.value;
      StagedLifts(was, a, b);
      BothStagedMatch(was, a, b);
      BothStagedHouse(was, a, b);
      EnterForwarding(a, b, k, moving);
      ghost var s := Now();
      FlushOnce(a);
      ghost var t := Now();
      FlushOnce(b);
      CalmTrans(s, t, Now());
      CalmSameMatch(s, Now());
      MatchTrans(was, s, Now());
      CalmHouse(s, Now());
      HouseTrans(was, s, Now());
      BothStarted(was, s, t, Now(), a, b);
      BothFlushed(was, s, t, Now(), k, a, b);
    }

    lemma BothFlushed(was: Loop, s: Loop, t: Loop, u: Loop, k: nat, a: nat, b: nat)
      requires k < |was.chanAt| && was.chanAt[k].a == Some(a) && was.chanAt[k].b == Some(b)
      requires Movable(was, a, k) && Movable(was, b, k)
      requires s == Staged(Staged(was, a, Forwarding), b, Forwarding) && Links(s) && Calm(s, t)
      requires OnFailure(s, t, Circle(s, a)) && OnFailure(t, u, Circle(t, b))
      ensures OnFailure(was, u, Sides(was, k))
    {
      PlayersCircle(s, k, a);
      PlayersCircle(s, k, b);
      CalmCircle(s, t, b);
      OnFailureTrans(s, t, u, Sides(was, k), Circle(t, b));
    }

    /** Gone, or forwarding. */
    ghost predicate Forwards(s: Loop, i: nat) {
      i < |s.conns| && (s.conns[i].stage == Forwarding || s.conns[i].stage == Dead)
    }

    method EnterForwarding(a: nat, b: nat, k: nat, ghost moving: set<nat>)
      requires Working(Now(), moving) && a != b && Movable(Now(), a, k) && Movable(Now(), b, k) && moving <= {a, b}
      requires Means(Now(), a) && Means(Now(), b)
      modifies this`conns
      ensures Steady(Now()) && |conns| == old(|conns|)
      ensures Now() == Staged(Staged(old(Now()), a, Forwarding), b, Forwarding)
      ensures conns[a].stage == Forwarding && conns[b].stage == Forwarding
    {
      MovedWorking(Now(), a, k, b, moving);
      SetStage(a, Forwarding);
      MovedWorking(Now(), b, k, a, moving - {a});
      SetStage(b, Forwarding);
      assert moving - {a} - {b} == {};
    }

    /** Forwards what a connection has buffered, if it is still there. */
    method FlushOnce(c: nat)
      requires Steady(Now()) && Forwards(Now(), c)
      modifies this
      ensures Steady(Now()) && |conns| == old(|conns|) && Calm(old(Now()), Now())
      ensures Moves(old(Now()), Now(), c, P.OnForward(View(old(Now()), c)))
      ensures OnFailure(old(Now()), Now(), Circle(old(Now()), c))
    {
      if conns[c].stage == Forwarding && |conns[c].rx| != 0 {
        assert StageOk(Now(), c) && ConnLinked(Now(), c);
        ghost var _ := OnForward(c);
      } else {
        EmptyMoves(Now(), c);
      }
    }

    // ---------------------------------------------------------------- READY handshake

    /** The reading loop of on_lobby: skips frames without a type and READY or QUEUE_CANCEL
        frames with a bad checksum, stops at the first decision or game frame. */
    method LobbyLoop(rx0: seq<byte>) returns (r: Lobby)
      ensures r == ReadLobby(rx0)
    {
      var rx := rx0;
      while |rx| >= 6
        invariant ReadLobby(rx) == ReadLobby(rx0)
        decreases |rx|
      {
        var len := LengthAt(rx, 0);
        if len > MAX_PAYLOAD + 1 { return Corrupt; }
        var total := len + 6;
        if |rx| < total { break; }
        LobbyHead(rx);
        ReadLobbyNext(rx, total);
        if len >= 1 {
          if rx[2] != READY && rx[2] != QUEUE_CANCEL { break; }
          if ChecksumOk(rx[..total]) {
            return if rx[2] == READY && len >= 2 && rx[3] != 0 then Accepted(rx[total..]) else Declined(rx[total..]);
          }
        }
        rx := rx[total..];
      }
      r := Undecided(rx);
    }

    /** on_lobby: reads up to the player's decision; READY(1) is passed on, anything else ends
        the match; when both are ready forwarding starts. */
    method OnLobby(c: nat)
      requires Steady(Now()) && Live(Now(), c) && conns[c].stage == InLobby
      modifies this
      ensures Steady(Now()) && |conns| == old(|conns|)
      ensures Refuses(old(conns[c].ready), old(conns[c].rx)) ==> !Live(Now(), c)
      ensures Spares(old(Now()), Now(), Circle(old(Now()), c))
      ensures !Refuses(old(conns[c].ready), old(conns[c].rx)) ==> OnFailure(old(Now()), Now(), Circle(old(Now()), c))
      ensures old(conns[c].ready) || ReadLobby(old(conns[c].rx)).Undecided? ==> NotStuck(Now(), old(conns[c].ch.value))
      ensures old(!conns[c].ready && PeerWaits(Now(), c)) && ReadLobby(old(conns[c].rx)).Accepted? ==>
                AcceptedBy(old(Now()), Now(), c)
      ensures Reads(old(Now()), Now(), c, P.OnRead(View(old(Now()), c)))
      ensures old(PeerWaits(Now(), c)) ==> OpponentStays(old(Now()), Now(), c)
      ensures SameMatch(old(Now()), Now())
    {
      ghost var s := Now();
      assert StageOk(s, c) && ConnLinked(s, c);
      LobbyLink(s, c);
      var k := conns[c].ch.value;
      if conns[c].ready {
        SidesCircle(s, s, c, k);
        StartIfBothReady(k);
        OpponentUnmoved(s, Now(), c, k);
      } else {
        ReadDecision(c, k);
      }
    }

    /** c's opponent is gone, or as it was. */
    ghost predicate OpponentStays(s: Loop, t: Loop, c: nat)
      requires c < |s.conns|
    {
      var p := Opponent(s, c);
      p.Some? ==> p.value < |s.conns| && p.value < |t.conns| && ConnEvolves(s.conns[p.value], t.conns[p.value]) &&
                  Stays(s, t, p.value)
    }

    lemma OpponentUnmoved(s: Loop, t: Loop, c: nat, k: nat)
      requires Links(s) && Live(s, c) && s.conns[c].ch == Some(k) && k < |s.chanAt| && (!BothReady(s, k) ==> t == s)
      ensures PeerWaits(s, c) ==> OpponentStays(s, t, c)
    {
      if PeerWaits(s, c) {
        EvolvesRefl(s);
        EvolvesApart(s, s, c);
        StillWaits(s, s, c, k);
        OpponentIsOther(s, c);
      }
    }

    method ReadDecision(c: nat, k: nat)
      requires Steady(Now()) && Live(Now(), c) && k < |chanAt|
      requires conns[c].stage == InLobby && !conns[c].ready && conns[c].ch == Some(k)
      modifies this
      ensures Steady(Now()) && |conns| == old(|conns|)
      ensures ReadLobby(old(conns[c].rx)).Corrupt? || ReadLobby(old(conns[c].rx)).Declined? ==> !Live(Now(), c)
      ensures ReadLobby(old(conns[c].rx)).Undecided? ==> NotStuck(Now(), k)
      ensures old(PeerWaits(Now(), c)) && ReadLobby(old(conns[c].rx)).Accepted? ==> AcceptedBy(old(Now()), Now(), c)
      ensures Reads(old(Now()), Now(), c, P.OnLobby(View(old(Now()), c)))
      ensures old(PeerWaits(Now(), c)) ==> OpponentStays(old(Now()), Now(), c)
      ensures SameMatch(old(Now()), Now()) && Spares(old(Now()), Now(), Circle(old(Now()), c))
      ensures !Refuses(old(conns[c].ready), old(conns[c].rx)) ==> OnFailure(old(Now()), Now(), Circle(old(Now()), c))
    {
      ghost var s := Now();
      var r := LobbyLoop(conns[c].rx);
      var go := Decide(c, k, r);
      ghost var t := Now();
      MovesReads(s, t, c, P.OnLobby(View(s, c)));
      OpponentApart(s, t, c, P.OnLobby(View(s, c)));
      if go {
        if PeerWaits(s, c) { StillWaits(s, t, c, k); }
        GoOn(c, k, s, P.OnLobby(View(s, c)));
      }
    }

    method GoOn(c: nat, k: nat, ghost s: Loop, ghost l: P.Link)
      requires Links(s) && Live(s, c) && s.conns[c].ch == Some(k) && k < |s.chanAt|
      requires Steady(Now()) && Apart(s, Now(), c) && OnFailure(s, Now(), Circle(s, c)) && Reads(s, Now(), c, l)
      modifies this
      ensures Steady(Now()) && |conns| == |s.conns| && NotStuck(Now(), k)
      ensures !BothReady(old(Now()), k) ==> Now() == old(Now())
      ensures Reads(s, Now(), c, l) && SameMatch(s, Now()) && OnFailure(s, Now(), Circle(s, c))
    {
      ghost var t := Now();
      SidesCircle(s, t, c, k);
      StartIfBothReady(k);
      ReadsThen(s, t, Now(), c, l);
      MatchTrans(s, t, Now());
      OnFailureTrans(s, t, Now(), Circle(s, c), Sides(t, k));
    }

    /** Its buffer declines the match, cancels it, or is corrupt. */
    ghost predicate Refuses(ready: bool, rx: seq<byte>) {
      !ready && (ReadLobby(rx).Corrupt? || ReadLobby(rx).Declined?)
    }

    lemma OpponentApart(s: Loop, t: Loop, c: nat, l: P.Link)
      requires Links(s) && Live(s, c) && Apart(s, t, c) && Moves(s, t, c, l)
      ensures OpponentStays(s, t, c)
    {
      OpponentIsOther(s, c);
    }

    /** c's READY is noted, the bytes behind it are kept, and its opponent's stream grew by
        READY(1) and nothing else; or the opponent was closed. */
    ghost predicate AcceptedBy(s: Loop, t: Loop, c: nat)
      requires c < |s.conns| && ReadLobby(s.conns[c].rx).Accepted?
    {
      var peer := Opponent(s, c);
      (Live(t, c) && t.conns[c].ready && t.conns[c].rx == ReadLobby(s.conns[c].rx).rx &&
       Sent(s, t, peer, if peer.Some? then P.Yes() else [])) ||
      (peer.Some? && !Live(t, peer.value))
    }

    method Decide(c: nat, k: nat, r: Lobby) returns (go: bool)
      requires Steady(Now()) && Live(Now(), c) && k < |chanAt| && r == ReadLobby(conns[c].rx)
      requires conns[c].stage == InLobby && !conns[c].ready && conns[c].ch == Some(k)
      modifies this
      ensures Steady(Now()) && |conns| == old(|conns|) && |chanAt| == old(|chanAt|)
      ensures r.Corrupt? || r.Declined? ==> !Live(Now(), c) && !go
      ensures go ==> r.Undecided? || r.Accepted?
      ensures r.Undecided? ==> go && Now() == Revised(old(Now()), c, old(conns[c]).(rx := r.rx), 0)
      ensures r.Accepted? ==> AcceptedBy(old(Now()), Now(), c)
      ensures Spares(old(Now()), Now(), Circle(old(Now()), c))
      ensures r.Undecided? || r.Accepted? ==> OnFailure(old(Now()), Now(), Circle(old(Now()), c))
      ensures Moves(old(Now()), Now(), c, P.OnLobby(View(old(Now()), c))) && Apart(old(Now()), Now(), c)
    {
      go := false;
      match r
      case Corrupt => Quit(c);
      case Declined(rx) => Decline(c, k, rx);
      case Undecided(rx) =>
        UndecidedMoves(Now(), c, conns[c].(rx := rx));
        RevisedApart(Now(), c, conns[c].(rx := rx));
        SetRx(c, rx, {});
        go := true;
      case Accepted(rx) =>
        go := AcceptMatch(c, k, rx);
    }

    method Quit(c: nat)
      requires Steady(Now()) && Live(Now(), c)
      modifies this
      ensures Steady(Now()) && |conns| == old(|conns|) && |chanAt| == old(|chanAt|) && !Live(Now(), c)
      ensures Spares(old(Now()), Now(), Circle(old(Now()), c))
      ensures Moves(old(Now()), Now(), c, P.OnLobby(View(old(Now()), c))) && Apart(old(Now()), Now(), c)
    {
      ghost var s := Now();
      Drop(c, {});
      EvolvesDrifts(s, Now());
      EvolvesApart(s, Now(), c);
      SettlesStays(s, Now());
    }

    method Decline(c: nat, k: nat, rx: seq<byte>)
      requires Steady(Now()) && Live(Now(), c) && k < |chanAt| && conns[c].ch == Some(k) && |rx| <= RX_CAP
      modifies this
      ensures Steady(Now()) && |conns| == old(|conns|) && |chanAt| == old(|chanAt|) && !Live(Now(), c)
      ensures Spares(old(Now()), Now(), Circle(old(Now()), c))
      ensures Moves(old(Now()), Now(), c, P.OnLobby(View(old(Now()), c))) && Apart(old(Now()), Now(), c)
    {
      ghost var s := Now();
      RewrittenOthers(s, c, conns[c].(rx := rx));
      RevisedApart(s, c, conns[c].(rx := rx));
      SetRx(c, rx, {});
      ghost var t := Now();
      Refuse(c, k, P.OnLobby(View(s, c)));
      RejectedSpares(s, s.conns[c].(rx := rx), 0, Now(), c);
      AfterOwn(s, t, Now(), c, P.OnLobby(View(s, c)));
      ApartEvolves(s, t, Now(), c);
    }

    /** Cancelled or declined: the opponent hears READY(0), the connection is closed. */
    method Refuse(c: nat, k: nat, ghost l: P.Link)
      requires Steady(Now()) && Live(Now(), c) && k < |chanAt| && conns[c].ch == Some(k)
      modifies this
      ensures Steady(Now()) && |conns| == old(|conns|) && |chanAt| == old(|chanAt|) && !Live(Now(), c)
      ensures Spares(old(Now()), Now(), Circle(old(Now()), c))
      ensures Evolves(old(Now()), Now()) && Moves(old(Now()), Now(), c, l)
    {
      ghost var s := Now();
      var peer := Side(chanAt[k], !conns[c].isA);
      OpponentIsMatched(s, c);
      SayNo(peer);
      DropAfter(c, s, peer, l);
    }

    method SayNo(peer: Option<nat>)
      requires Steady(Now()) && TellablePeer(Now(), peer, {})
      modifies this
      ensures Steady(Now()) && Sends(old(Now()), Now(), peer)
      ensures Spares(old(Now()), Now(), CircleOf(old(Now()), peer))
    {
      BuiltIsWhole(READY, [0]);
      var _ := Say(peer, BuildFrame(READY, [0]), {});
    }

    method DropAfter(c: nat, ghost s: Loop, ghost peer: Option<nat>, ghost l: P.Link)
      requires Steady(Now()) && Links(s) && Live(s, c) && Opponent(s, c) == peer && Sends(s, Now(), peer)
      requires s.conns[c].ch.Some? && Spares(s, Now(), CircleOf(s, peer))
      modifies this
      ensures Spares(s, Now(), Circle(s, c))
      ensures Steady(Now()) && |conns| == |s.conns| && |chanAt| == |s.chanAt| && !Live(Now(), c)
      ensures Evolves(s, Now()) && Moves(s, Now(), c, l)
    {
      ghost var t := Now();
      Drop(c, {});
      RefusedMoves(s, t, Now(), c, peer, l);
    }

    lemma RefusedMoves(s: Loop, t: Loop, u: Loop, c: nat, peer: Option<nat>, l: P.Link)
      requires Links(s) && Links(u) && Live(s, c) && Opponent(s, c) == peer && !Live(u, c)
      requires Sends(s, t, peer) && Settles(t, u)
      requires s.conns[c].ch.Some? && Links(t) && Spares(s, t, CircleOf(s, peer)) && Spares(t, u, Circle(t, c))
      ensures Evolves(s, u) && Moves(s, u, c, l) && Spares(s, u, Circle(s, c))
    {
      EvolvesTrans(s, t, u);
      EvolvesDrifts(s, t);
      EvolvesDrifts(s, s) by { EvolvesRefl(s); }
      OpponentCircle(s, s, c, peer);
      ThenCircle(s, t, u, c);
      FailsThen(s, t, u, peer);
      ClosedMoves(s, u, c, peer, l);
    }

    /** READY(1): noted and passed on; if it cannot be, the opponent is closed. */
    method AcceptMatch(c: nat, k: nat, rx: seq<byte>) returns (ok: bool)
      requires Steady(Now()) && Live(Now(), c) && k < |chanAt| && |rx| <= RX_CAP
      requires conns[c].stage == InLobby && !conns[c].ready && conns[c].ch == Some(k)
      requires ReadLobby(conns[c].rx) == Accepted(rx)
      modifies this
      ensures Steady(Now()) && SaidYes(old(Now()), Now(), c)
    {
      ghost var s, d := Now(), conns[c].(rx := rx, ready := true);
      var peer := Side(chanAt[k], !conns[c].isA);
      OpponentIsSide(s, c, k);
      NoteAccepted(c, rx, peer);
      if peer.None? {
        ok := true;
        AloneAccepts(s, Now(), c, d);
      } else {
        SameLive(s, Now(), peer.value);
        ok := PassReady(c, peer.value, s, d);
      }
    }

    lemma OpponentIsSide(s: Loop, c: nat, k: nat)
      requires Links(s) && Live(s, c) && s.conns[c].ch == Some(k) && k < |s.chanAt|
      ensures Side(s.chanAt[k], !s.conns[c].isA) == Opponent(s, c)
      ensures Opponent(s, c).Some? ==> Live(s, Opponent(s, c).value)
    {
      if Opponent(s, c).Some? { SideIsLive(s, k, !s.conns[c].isA); }
    }

    /** c has accepted its match: as AcceptedBy says, as the path reads it, and nobody but c and
        its opponent is closed, and only if a send failed. */
    ghost predicate SaidYes(s: Loop, t: Loop, c: nat)
      requires c < |s.conns| && ReadLobby(s.conns[c].rx).Accepted?
    {
      |t.conns| == |s.conns| && |t.chanAt| == |s.chanAt| && AcceptedBy(s, t, c) && OnFailure(s, t, Circle(s, c)) &&
      Moves(s, t, c, P.OnLobby(View(s, c))) && Apart(s, t, c)
    }

    lemma AloneAccepts(s: Loop, t: Loop, c: nat, d: Conn)
      requires Live(s, c) && ReadLobby(s.conns[c].rx).Accepted? && s.conns[c].ch.Some? && Opponent(s, c).None?
      requires d == s.conns[c].(rx := ReadLobby(s.conns[c].rx).rx, ready := true)
      requires t == Revised(s, c, d, 0) && Live(t, c) && Sent(s, t, None, [])
      ensures SaidYes(s, t, c)
    {
      AloneMoves(s, c, d, P.OnLobby(View(s, c)));
    }

    lemma AloneMoves(s: Loop, c: nat, d: Conn, l: P.Link)
      requires Live(s, c) && s.conns[c].ch.Some? && Opponent(s, c).None?
      requires d == s.conns[c].(rx := d.rx, ready := d.ready)
      ensures Moves(s, Revised(s, c, d, 0), c, l) && Apart(s, Revised(s, c, d, 0), c)
      ensures OnFailure(s, Revised(s, c, d, 0), Circle(s, c))
    {
      OffPathMoves(s, c, d, l);
      RevisedApart(s, c, d);
    }

    lemma SentSince(s: Loop, t: Loop, u: Loop, p: nat, x: seq<byte>)
      requires Sent(s, t, Some(p), []) && Sent(t, u, Some(p), x)
      ensures Sent(s, u, Some(p), x)
    {
      Associates(Stream(s, p), [], x);
      assert [] + x == x;
    }

    method NoteAccepted(c: nat, rx: seq<byte>, ghost peer: Option<nat>)
      requires Steady(Now()) && Live(Now(), c) && |rx| <= RX_CAP && (peer.Some? ==> peer.value < |conns|)
      requires conns[c].stage == InLobby
      modifies this`conns
      ensures Steady(Now()) && |conns| == old(|conns|) && Live(Now(), c) && Sent(old(Now()), Now(), peer, [])
      ensures Now() == Revised(old(Now()), c, old(conns[c]).(rx := rx, ready := true), 0)
    {
      ghost var s := Now();
      var d := conns[c].(rx := rx, ready := true);
      RewrittenWorking(s, c, d, {});
      AcceptedStreams(s, c, d, peer);
      conns := conns[c := d];
    }

    lemma AcceptedStreams(s: Loop, c: nat, d: Conn, peer: Option<nat>)
      requires c < |s.conns| && d == s.conns[c].(rx := d.rx, ready := d.ready) &&
               (peer.Some? ==> peer.value < |s.conns|)
      ensures Sent(s, Revised(s, c, d, 0), peer, [])
    {
      SameStreams(s, Revised(s, c, d, 0), peer);
    }

    lemma SameStreams(s: Loop, t: Loop, peer: Option<nat>)
      requires |t.conns| == |s.conns| && (peer.Some? ==> peer.value < |s.conns|)
      requires forall i :: 0 <= i < |s.conns| ==>
                 t.conns[i].sent == s.conns[i].sent && t.conns[i].tx == s.conns[i].tx &&
                 (t.conns[i].stage == Dead <==> s.conns[i].stage == Dead)
      ensures Sent(s, t, peer, [])
    {
      assert LiveSet(t.conns) == LiveSet(s.conns);
      if peer.Some? { assert Stream(s, peer.value) + [] == Stream(s, peer.value); }
    }

    method PassReady(c: nat, peer: nat, ghost s: Loop, ghost d: Conn) returns (ok: bool)
      requires Steady(s) && Live(s, c) && s.conns[c].stage == InLobby && !s.conns[c].ready &&
               Opponent(s, c) == Some(peer)
      requires d == s.conns[c].(rx := d.rx, ready := true) && ReadLobby(s.conns[c].rx) == Accepted(d.rx)
      requires Steady(Now()) && Now() == Revised(s, c, d, 0) && Live(Now(), peer) && Sent(s, Now(), Some(peer), [])
      modifies this
      ensures Steady(Now()) && SaidYes(s, Now(), c)
    {
      ghost var t := Now();
      ok := SayYes(c, peer, P.OnLobby(View(s, c)));
      if ok {
        AcceptedMoves(s, t, Now(), c, peer, d);
        SentSince(s, t, Now(), peer, P.Yes());
      } else {
        RewrittenOthers(s, c, d);
        AfterOwn(s, t, Now(), c, P.OnLobby(View(s, c)));
      }
      RevisedApart(s, c, d);
      ApartEvolves(s, t, Now(), c);
      RevisedFailure(s, d, Now(), c);
    }

    lemma RevisedFailure(s: Loop, d: Conn, u: Loop, c: nat)
      requires Live(s, c) && SameLinks(s.conns[c], d)
      requires OnFailure(Revised(s, c, d, 0), u, Circle(Revised(s, c, d, 0), c))
      ensures OnFailure(s, u, Circle(s, c))
    {}

    method SayYes(c: nat, peer: nat, ghost l: P.Link) returns (ok: bool)
      requires Steady(Now()) && Live(Now(), c) && Live(Now(), peer) && Opponent(Now(), c) == Some(peer)
      modifies this
      ensures Steady(Now()) && |conns| == old(|conns|) && |chanAt| == old(|chanAt|) && Evolves(old(Now()), Now())
      ensures ok ==> Live(Now(), c) && conns[c].ready == old(conns[c].ready) && conns[c].rx == old(conns[c].rx)
      ensures ok ==> Sent(old(Now()), Now(), Some(peer), P.Yes())
      ensures !ok ==> !Live(Now(), peer) && Moves(old(Now()), Now(), c, l)
      ensures OnFailure(old(Now()), Now(), Circle(old(Now()), c))
    {
      ghost var s := Now();
      BuiltIsWhole(READY, [1]);
      OpponentIsMatched(s, c);
      ok := Say(Some(peer), BuildFrame(READY, [1]), {});
      if ok {
        ReadyPassed(s, Now(), peer, c, BuildFrame(READY, [1]));
      } else {
        ghost var t := Now();
        Drop(peer, {});
        NotPassed(s, t, Now(), c, peer, l);
      }
    }

    lemma ReadyPassed(s: Loop, t: Loop, peer: nat, c: nat, data: seq<byte>)
      requires Evolves(s, t) && Delivered(s, t, peer, data) && Live(s, c)
      ensures Live(t, c) && t.conns[c].ready == s.conns[c].ready && t.conns[c].rx == s.conns[c].rx
      ensures Sent(s, t, Some(peer), data) && OnFailure(s, t, Circle(s, c))
    {
      SameLive(s, t, c);
      EvolvesConn(s, t, c);
      SameLiveSpares(s, t, Circle(s, c));
    }

    lemma NotPassed(s: Loop, t: Loop, u: Loop, c: nat, peer: nat, l: P.Link)
      requires Links(s) && Links(u) && Live(s, c) && Opponent(s, c) == Some(peer) && !Live(u, peer)
      requires Evolves(s, t) && Quiet(s, t, {peer}) && Settles(t, u)
      requires s.refused < t.refused && Links(t) && Spares(s, t, Circle(s, peer)) && Spares(t, u, Circle(t, peer))
      ensures Evolves(s, u) && Moves(s, u, c, l) && OnFailure(s, u, Circle(s, c))
    {
      EvolvesTrans(s, t, u);
      EvolvesDrifts(s, t);
      EvolvesDrifts(s, s) by { EvolvesRefl(s); }
      OpponentCircle(s, s, c, Some(peer));
      ThenCircle(s, t, u, peer);
      FailsThen(s, t, u, Some(peer));
      FailedMoves(s, u, c, Some(peer), l);
    }

    /** Two players who are both ready are not kept waiting in the lobby. */
    ghost predicate NotStuck(s: Loop, k: nat) {
      k < |s.chanAt| && s.chanAt[k].a.Some? && s.chanAt[k].b.Some? ==>
        var a, b := s.chanAt[k].a.value, s.chanAt[k].b.value;
        a < |s.conns| && b < |s.conns| &&
        (s.conns[a].ready && s.conns[b].ready ==> Forwards(s, a) && Forwards(s, b))
    }

    method StartIfBothReady(k: nat)
      requires Steady(Now()) && k < |chanAt|
      modifies this
      ensures Steady(Now()) && |conns| == old(|conns|) && NotStuck(Now(), k) && Follows(old(Now()), Now())
      ensures OnFailure(old(Now()), Now(), old(Sides(Now(), k)))
      ensures old(!BothReady(Now(), k)) ==> Now() == old(Now())
      ensures SameMatch(old(Now()), Now())
    {
      FollowsSelf(Now());
      var a, b := chanAt[k].a, chanAt[k].b;
      if a.Some? && b.Some? && a.value < |conns| && b.value < |conns| && conns[a.value].ready && conns[b.value].ready {
        StartBoth(k, a.value, b.value);
      } else {
        SidesExist(Now(), k);
      }
    }

    lemma SidesExist(s: Loop, k: nat)
      requires Links(s) && k < |s.chanAt|
      ensures s.chanAt[k].a.Some? ==> s.chanAt[k].a.value < |s.conns|
      ensures s.chanAt[k].b.Some? ==> s.chanAt[k].b.value < |s.conns|
    {
      assert SideLinked(s, k, true) && SideLinked(s, k, false);
    }

    method StartBoth(k: nat, a: nat, b: nat)
      requires Steady(Now()) && k < |chanAt| && chanAt[k].a == Some(a) && chanAt[k].b == Some(b)
      requires a < |conns| && b < |conns| && conns[a].ready && conns[b].ready
      modifies this
      ensures Steady(Now()) && |conns| == old(|conns|) && NotStuck(Now(), k) && Follows(old(Now()), Now())
      ensures SameMatch(old(Now()), Now()) && OnFailure(old(Now()), Now(), old(Sides(Now(), k)))
    {
      ghost var s := Now();
      ReadyCanForward(s, k, a, b);
      BeginForwarding(k, {});
      StartedFollows(s, Now(), a, b);
    }

    lemma ReadyCanForward(s: Loop, k: nat, a: nat, b: nat)
      requires Steady(s) && k < |s.chanAt| && s.chanAt[k].a == Some(a) && s.chanAt[k].b == Some(b)
      requires a < |s.conns| && b < |s.conns| && s.conns[a].ready && s.conns[b].ready
      ensures CanForward(s, k) && ChanOpen(s, k) && Startable(s, a) && Startable(s, b)
    {
      assert SideLinked(s, k, true) && SideLinked(s, k, false);
      assert StageOk(s, a) && StageOk(s, b) && ConnLinked(s, a);
    }

    // ---------------------------------------------------------------- the match queue

    method SetStage(c: nat, st: Stage)
      requires c < |conns|
      modifies this`conns
      ensures Now() == Staged(old(Now()), c, st)
    {
      conns := conns[c := conns[c].(stage := st)];
    }

    method JoinQueue(c: nat)
      modifies this`queue
      ensures Now() == Enqueued(old(Now()), c)
    {
      queue := queue + [c];
    }

    method PopPair() returns (a: nat, b: nat)
      requires |queue| >= 2
      modifies this`queue
      ensures a == old(queue[0]) && b == old(queue[1]) && Now() == Dequeued(old(Now()), 2)
    {
      a, b := queue[0], queue[1];
      queue := queue[2..];
    }

    /** parse_frames into an empty list. */
    method ParseBuffer(rx: seq<byte>) returns (ok: bool, rest: seq<byte>, frames: seq<Frame>)
      ensures ok == Parse(rx).ok && rest == Parse(rx).rest && frames == Parse(rx).frames
    {
      ok, rest, frames := ParseFrames(rx, []);
      assert [] + Parse(rx).frames == Parse(rx).frames;
    }

    /** The waiting connection cancelled, or its stream is corrupt. */
    method CancelScan(rx: seq<byte>) returns (stays: bool)
      ensures stays == StaysQueued(rx)
    {
      var ok, _, frames := ParseBuffer(rx);
      if !ok { return false; }
      var i := 0;
      while i < |frames|
        invariant i <= |frames| && forall j :: 0 <= j < i ==> frames[j].ty != QUEUE_CANCEL
      {
        if frames[i].ty == QUEUE_CANCEL {
          assert HasCancel(frames);
          return false;
        }
        i := i + 1;
      }
      assert !HasCancel(frames);
      stays := true;
    }

    /** on_queued: watches a copy of the buffer for QUEUE_CANCEL and consumes nothing. */
    method OnQueued(c: nat, ghost moving: set<nat>) returns (stays: bool)
      requires Working(Now(), moving) && Live(Now(), c)
      modifies this
      ensures stays == StaysQueued(old(conns[c].rx))
      ensures Working(Now(), if stays then moving else moving - {c})
      ensures if stays then Now() == old(Now())
              else !Live(Now(), c) && Settles(old(Now()), Now()) && Spares(old(Now()), Now(), Circle(old(Now()), c))
    {
      stays := CancelScan(conns[c].rx);
      if !stays { Drop(c, moving); }
    }

    /** enter_queue: a cancellation already received counts before anyone is paired. */
    method EnterQueue(c: nat)
      requires Working(Now(), {c}) && Unplaced(Now(), c) && !conns[c].handshake
      requires conns[c].stage == Auth && conns[c].intent == ToQueue
      modifies this
      ensures Steady(Now()) && |conns| == old(|conns|) && Follows(old(Now()), Now())
      ensures old(|conns[c].rx|) != 0 && !StaysQueued(old(conns[c].rx)) ==> !Live(Now(), c)
      ensures (old(|conns[c].rx|) == 0 || StaysQueued(old(conns[c].rx))) && old(|queue|) == 0 ==>
                Now() == Enqueued(Staged(old(Now()), c, Queued), c)
      ensures (old(|conns[c].rx|) == 0 || StaysQueued(old(conns[c].rx))) && old(|queue|) == 1 ==>
                Rivals(Now(), old(queue[0]), c, old(|chanAt|))
    {
      ghost var s := Now();
      BecomeQueued(c);
      ghost var t := Now();
      NothingStays();
      var stays := true;
      if |conns[c].rx| != 0 { stays := OnQueued(c, {c}); }
      assert {c} - {c} == {};
      if stays {
        QueuedFollows(s, c);
        Wait(c);
        FollowsTrans(s, t, Now());
      } else {
        CancelledFollows(s, c, Now());
      }
    }

    method BecomeQueued(c: nat)
      requires Working(Now(), {c}) && Unplaced(Now(), c)
      modifies this`conns
      ensures Working(Now(), {c}) && Unplaced(Now(), c) && Now() == Staged(old(Now()), c, Queued)
    {
      StagedWorking(Now(), c, Queued, {c});
      assert {c} + {c} == {c};
      SetStage(c, Queued);
    }

    /** Whoever of the two is alive is on its side of match k, w as the first player. */
    ghost predicate Rivals(s: Loop, w: nat, c: nat, k: nat) {
      (Live(s, w) ==> s.conns[w].ch == Some(k) && s.conns[w].isA) &&
      (Live(s, c) ==> s.conns[c].ch == Some(k) && !s.conns[c].isA)
    }

    /** Into the queue, and out of it again if somebody is there already. */
    method Wait(c: nat)
      requires Working(Now(), {c}) && Unplaced(Now(), c) && !conns[c].handshake && conns[c].stage == Queued
      requires conns[c].intent == ToQueue
      modifies this
      ensures Steady(Now()) && |conns| == old(|conns|) && Follows(old(Now()), Now())
      ensures old(|queue|) == 0 ==> Now() == Enqueued(old(Now()), c)
      ensures old(|queue|) == 1 ==> Rivals(Now(), old(queue[0]), c, old(|chanAt|))
    {
      ghost var s := Now();
      QueuedPairing(s, c);
      QueuedBehind(s, c);
      JoinQueue(c);
      ghost var t := Now();
      TryPair();
      FollowsTrans(s, t, Now());
    }

    lemma QueuedBehind(s: Loop, c: nat)
      ensures Follows(s, Enqueued(s, c))
      ensures |s.queue| == 1 ==> Enqueued(s, c).queue == [s.queue[0], c]
    {
      SameConnsFollows(s, Enqueued(s, c));
    }

    /** Like Steady, with up to two waiting. */
    ghost predicate Pairing(s: Loop) {
      Inv(s) && Stages(s, {}) && s.closing == {} && s.tearing == {} && |s.queue| <= 2
    }

    lemma QueuedPairing(s: Loop, c: nat)
      requires Working(s, {c}) && Unplaced(s, c) && !s.conns[c].handshake && s.conns[c].stage == Queued
      requires s.conns[c].intent == ToQueue
      ensures Pairing(Enqueued(s, c))
    {
      EnqueuedKeeps(s, c);
      EnqueuedStages(s, c, {c});
      assert StageOk(Enqueued(s, c), c);
      Placed(Enqueued(s, c), {c}, c);
      assert {c} - {c} == {};
    }

    /** try_pair: whoever waits is alive, so the first two are matched. */
    method TryPair()
      requires Pairing(Now())
      modifies this
      ensures Steady(Now()) && |conns| == old(|conns|) && Follows(old(Now()), Now())
      ensures old(|queue|) < 2 ==> Now() == old(Now())
      ensures old(|queue|) == 2 ==> Rivals(Now(), old(queue[0]), old(queue[1]), old(|chanAt|))
    {
      ghost var s := Now();
      FollowsSelf(s);
      while |queue| >= 2
        invariant Pairing(Now()) && |conns| == |s.conns| && Follows(s, Now())
        invariant Now() == s || (|queue| <= 1 && |s.queue| == 2 && Rivals(Now(), s.queue[0], s.queue[1], |s.chanAt|))
        decreases |queue|
      {
        PopAndStart();
        FollowsTrans(s, s, Now());
      }
    }

    method PopAndStart()
      requires Pairing(Now()) && |queue| == 2
      modifies this
      ensures Steady(Now()) && |conns| == old(|conns|) && Follows(old(Now()), Now())
      ensures Rivals(Now(), old(queue[0]), old(queue[1]), old(|chanAt|))
    {
      ghost var s := Now();
      PopTwo(s);
      var a, b := PopPair();
      ghost var t := Now();
      SameConnsFollows(s, t);
      assert Live(t, a) && Live(t, b);
      StartMatch(a, b);
      FollowsTrans(s, t, Now());
    }

    /** make_channel: both players get a side of a new match; it is ranked when there is a
        meta server and both are known to it. */
    method MakeChannel(a: nat, b: nat, room: Option<nat>) returns (k: nat)
      requires a < |conns| && b < |conns| && (room.Some? ==> room.value < |roomAt|)
      modifies this
      ensures k == old(|chanAt|)
      ensures Now() == Matched(old(Now()), a, b, room, old(Ranked(a, b)))
    {
      k := |chanAt|;
      Register(FreshMatch(conns, a, b, Ranked(a, b)));
      TakeSides(a, b, k);
      Dissolve(room);
    }

    method Register(c: Channel)
      modifies this`chanAt, this`chans, this`matchCount
      ensures Now() == Registered(old(Now()), c)
    {
      chans := chans + {|chanAt|};
      chanAt := chanAt + [c];
      matchCount := matchCount + 1;
    }

    method TakeSides(a: nat, b: nat, k: nat)
      requires a < |conns| && b < |conns|
      modifies this`conns
      ensures Now() == OnSides(old(Now()), a, b, k)
    {
      var ca, cb := conns[a].(room := None, ch := Some(k), isA := true),
                    conns[b].(room := None, ch := Some(k), isA := false);
      conns := conns[a := ca][b := cb];
    }

    /** The room has served its purpose once its players are matched. */
    method Dissolve(room: Option<nat>)
      requires room.Some? ==> room.value < |roomAt|
      modifies this`rooms, this`roomAt
      ensures Now() == RoomLeft(old(Now()), room)
    {
      if room.Some? {
        rooms := rooms - {roomAt[room.value].code};
        roomAt := roomAt[room.value := Dissolved(roomAt[room.value])];
      }
    }

    /** There is a meta server, and both players are known to it. */
    predicate Ranked(a: nat, b: nat)
      requires a < |conns| && b < |conns|
      reads this
    {
      lim.meta && conns[a].playerId != 0 && conns[b].playerId != 0
    }

    /** send_match_found to both.  If either cannot be told, both are closed. */
    method Introduce(a: nat, b: nat, noticeA: seq<byte>, noticeB: seq<byte>, ghost moving: set<nat>)
      returns (ok: bool)
      requires Working(Now(), moving) && Introducible(Now(), a, b, moving)
      requires WholeFrames(noticeA) && WholeFrames(noticeB)
      modifies this
      ensures Working(Now(), if ok then moving else moving - {a} - {b})
      ensures Evolves(old(Now()), Now()) && Quiet(old(Now()), Now(), {a, b})
      ensures ok ==> Told(old(Now()), Now(), a, b, noticeA, noticeB)
      ensures !ok ==> !Live(Now(), a) && !Live(Now(), b)
      ensures OnFailure(old(Now()), Now(), {a, b})
    {
      ghost var s := Now();
      ok := Tell(a, noticeA, moving);
      ghost var t := Now();
      if ok {
        StaysTellable(s, t, b, moving);
        ok := Tell(b, noticeB, moving);
        TwoSends(s, t, Now(), a, b);
        CircleShrinks(s, t, b);
        OnFailureTrans(s, t, Now(), {a, b}, Circle(t, b));
      }
      if ok {
        BothTold(s, t, Now(), a, b, noticeA, noticeB);
      } else {
        ghost var u := Now();
        CloseBoth(a, b, moving);
        EvolvesTrans(s, u, Now());
        QuietTrans(s, u, Now(), {a, b});
        BothClosed(s, u, Now(), a, b);
      }
    }

    /** Opponents, whom the handler may tell. */
    ghost predicate Introducible(s: Loop, a: nat, b: nat, moving: set<nat>) {
      Live(s, a) && Live(s, b) && a != b && Tellable(s, a, moving) && Tellable(s, b, moving) &&
      Circle(s, a) <= {a, b} && Circle(s, b) <= {a, b}
    }

    lemma OpponentsIntroducible(s: Loop, a: nat, b: nat, moving: set<nat>)
      requires Links(s) && Live(s, a) && Live(s, b) && Opponent(s, a) == Some(b) && Opponent(s, b) == Some(a)
      requires Stages(s, moving) && a != b
      ensures Introducible(s, a, b, moving)
    {
      OpponentsCircle(s, a, b);
      OpponentsCircle(s, b, a);
      PlacedIsTellable(s, a, moving);
      PlacedIsTellable(s, b, moving);
    }

    lemma BothClosed(s: Loop, t: Loop, u: Loop, a: nat, b: nat)
      requires Evolves(s, t) && Evolves(t, u) && s.refused < t.refused && Spares(s, t, {a, b})
      requires Circle(s, a) <= {a, b} && Circle(s, b) <= {a, b} && Spares(t, u, Circle(t, a) + Circle(t, b))
      ensures OnFailure(s, u, {a, b})
    {
      CircleShrinks(s, t, a);
      CircleShrinks(s, t, b);
      SparesTrans(s, t, u, {a, b}, Circle(t, a) + Circle(t, b));
    }

    lemma TwoSends(s: Loop, t: Loop, u: Loop, a: nat, b: nat)
      requires Sends(s, t, Some(a)) && Sends(t, u, Some(b))
      ensures Evolves(s, u) && Quiet(s, u, {a, b})
    {
      EvolvesTrans(s, t, u);
      QuietTrans(s, t, u, {a, b});
    }

    /** Nobody died, and each of the two has its own notice at the end of its stream. */
    ghost predicate Told(s: Loop, t: Loop, a: nat, b: nat, noticeA: seq<byte>, noticeB: seq<byte>) {
      Live(t, a) && Live(t, b) && a < |s.conns| && b < |s.conns| &&
      Stream(t, a) == Stream(s, a) + noticeA && Stream(t, b) == Stream(s, b) + noticeB
    }

    lemma BothTold(s: Loop, t: Loop, u: Loop, a: nat, b: nat, noticeA: seq<byte>, noticeB: seq<byte>)
      requires Live(s, a) && Live(s, b) && a != b
      requires Sent(s, t, Some(a), noticeA) && Sent(t, u, Some(b), noticeB)
      ensures Told(s, u, a, b, noticeA, noticeB)
    {
      SameLive(s, t, a);
      SameLive(t, u, a);
      SameLive(s, t, b);
      SameLive(t, u, b);
    }

    method Tell(c: nat, notice: seq<byte>, ghost moving: set<nat>) returns (ok: bool)
      requires Working(Now(), moving) && Tellable(Now(), c, moving) && WholeFrames(notice)
      modifies this
      ensures Working(Now(), moving) && Sends(old(Now()), Now(), Some(c))
      ensures ok ==> Sent(old(Now()), Now(), Some(c), notice)
      ensures OnFailure(old(Now()), Now(), Circle(old(Now()), c)) && (!ok ==> old(refused) < refused)
    {
      ghost var s := Now();
      ok := Say(Some(c), notice, moving);
      if ok { DeliveredSent(s, Now(), c, notice); }
    }

    method CloseBoth(a: nat, b: nat, ghost moving: set<nat>)
      requires Working(Now(), moving) && a < |conns| && b < |conns|
      modifies this
      ensures Working(Now(), moving - {a} - {b}) && Settles(old(Now()), Now())
      ensures !Live(Now(), a) && !Live(Now(), b)
      ensures Spares(old(Now()), Now(), Circle(old(Now()), a) + Circle(old(Now()), b))
    {
      ghost var s := Now();
      Drop(a, moving);
      ghost var t := Now();
      Drop(b, moving - {a});
      CircleShrinks(s, t, b);
      SettlesTrans(s, t, Now());
      EvolvesConn(t, Now(), a);
    }

    /** The match's seed and id and the players' icons: whatever they are, one announcement is
        for both. */
    method Announce() returns (m: P.Info, first: seq<byte>, second: seq<byte>)
      ensures first == P.Found(true, m) && second == P.Found(false, m) && WholeFrames(first) && WholeFrames(second)
    {
      m := *;
      first, second := P.Found(true, m), P.Found(false, m);
      FoundIsWhole(true, m);
      FoundIsWhole(false, m);
    }

    lemma FoundIsWhole(first: bool, m: P.Info)
      ensures WholeFrames(P.Found(first, m))
    {
      BuiltIsWhole(MATCH_FOUND, [if first then 1 else 2] + LeBytes(m.seed, 8) +
                                P.Short(if first then m.first else m.second) +
                                P.Short(if first then m.second else m.first) + P.Short(m.uuid));
    }

    /** start_match: the pair gets a channel, enters the lobby and is told; what either has
        already sent is read at once. */
    method StartMatch(a: nat, b: nat)
      requires Working(Now(), {a, b}) && Poppable(Now(), a) && Poppable(Now(), b) && a != b
      requires a !in queue && b !in queue
      modifies this
      ensures Steady(Now()) && |conns| == old(|conns|) && Follows(old(Now()), Now())
      ensures Rivals(Now(), a, b, old(|chanAt|))
    {
      ghost var s := Now();
      var ok := PairUp(a, b);
      if ok {
        ghost var t := Now();
        IntroducedFound(s, t, a, b);
        ReadLobbies(a, b);
        PairedFollows(s, t, Now(), a, b);
      }
    }

    /** Both are in the lobby of a new match and told, the first as player 1, the second as
        player 2; or both are closed. */
    method PairUp(a: nat, b: nat) returns (ok: bool)
      requires Working(Now(), {a, b}) && Poppable(Now(), a) && Poppable(Now(), b) && a != b
      requires a !in queue && b !in queue
      modifies this
      ensures Steady(Now()) && |conns| == old(|conns|)
      ensures if ok then Introduced(old(Now()), Now(), a, b) else !Live(Now(), a) && !Live(Now(), b)
      ensures if ok then Seated(old(Now()), Now(), a, b) else Follows(old(Now()), Now())
      ensures OnFailure(old(Now()), Now(), {a, b})
    {
      ghost var s := Now();
      SeatPair(a, b);
      ghost var t := Now();
      ok := TellPair(a, b, s);
      SameLiveSpares(s, t, {a, b});
      OnFailureTrans(s, t, Now(), {a, b}, {a, b});
      if ok { ToldSeats(s, t, Now(), a, b); } else { UntoldFollows(s, t, Now(), a, b); }
    }

    method TellPair(a: nat, b: nat, ghost s: Loop) returns (ok: bool)
      requires Steady(Now()) && Live(Now(), a) && Live(Now(), b) && a != b && Sent(s, Now(), None, [])
      requires Opponent(Now(), a) == Some(b) && Opponent(Now(), b) == Some(a)
      modifies this
      ensures Steady(Now()) && Evolves(old(Now()), Now()) && Quiet(old(Now()), Now(), {a, b})
      ensures OnFailure(old(Now()), Now(), {a, b})
      ensures if ok then Introduced(s, Now(), a, b) else !Live(Now(), a) && !Live(Now(), b)
    {
      ghost var t := Now();
      var m, noticeA, noticeB := Announce();
      OpponentsIntroducible(t, a, b, {});
      ok := Introduce(a, b, noticeA, noticeB, {});
      assert {} - {a} - {b} == {};
      if ok { ToldSince(s, t, Now(), a, b, m); }
    }

    /** Since s each of the two has got its own MATCH_FOUND of one match, and nothing else. */
    ghost predicate Introduced(s: Loop, t: Loop, a: nat, b: nat) {
      exists m :: Told(s, t, a, b, P.Found(true, m), P.Found(false, m))
    }

    /** Who waited in the queue has been told nothing else at all. */
    lemma IntroducedFound(s: Loop, t: Loop, a: nat, b: nat)
      requires Poppable(s, a) && Poppable(s, b) && Introduced(s, t, a, b)
      ensures a < |t.conns| && P.IsFound(Stream(t, a)) && b < |t.conns| && P.IsFound(Stream(t, b))
    {
      var m :| Told(s, t, a, b, P.Found(true, m), P.Found(false, m));
      assert Stream(s, a) + P.Found(true, m) == P.Found(true, m);
      assert Stream(s, b) + P.Found(false, m) == P.Found(false, m);
    }

    lemma ToldSince(s: Loop, t: Loop, u: Loop, a: nat, b: nat, m: P.Info)
      requires Sent(s, t, None, []) && Told(t, u, a, b, P.Found(true, m), P.Found(false, m))
      ensures Introduced(s, u, a, b)
    {
      assert Told(s, u, a, b, P.Found(true, m), P.Found(false, m));
    }

    method SeatPair(a: nat, b: nat)
      requires Working(Now(), {a, b}) && Poppable(Now(), a) && Poppable(Now(), b) && a != b
      requires a !in queue && b !in queue
      modifies this
      ensures Steady(Now()) && |conns| == old(|conns|) && Live(Now(), a) && Live(Now(), b)
      ensures Sent(old(Now()), Now(), None, []) && Seated(old(Now()), Now(), a, b) && refused == old(refused)
    {
      LobbiedSeats(Now(), a, b, Ranked(a, b));
      LobbiedSteady(Now(), a, b, Ranked(a, b));
      LobbiedStreams(Now(), a, b, Ranked(a, b));
      Seat(a, b);
    }

    lemma LobbiedStreams(s: Loop, a: nat, b: nat, ranked: bool)
      requires Live(s, a) && Live(s, b) && a != b
      ensures Sent(s, Lobbied(s, a, b, ranked), None, [])
    {
      var t := Lobbied(s, a, b, ranked);
      forall i | 0 <= i < |s.conns|
        ensures t.conns[i].sent == s.conns[i].sent && t.conns[i].tx == s.conns[i].tx &&
                (t.conns[i].stage == Dead <==> s.conns[i].stage == Dead)
      {
        LobbiedConn(s, a, b, ranked, i);
      }
      SameStreams(s, t, None);
    }

    lemma LobbiedConn(s: Loop, a: nat, b: nat, ranked: bool, i: nat)
      requires Live(s, a) && Live(s, b) && a != b && i < |s.conns|
      ensures var t := Lobbied(s, a, b, ranked);
              |t.conns| == |s.conns| && t.conns[i].sent == s.conns[i].sent && t.conns[i].tx == s.conns[i].tx &&
              (t.conns[i].stage == Dead <==> s.conns[i].stage == Dead)
    {
      var m := Matched(s, a, b, None, ranked);
      assert |m.conns| == |s.conns| && m.conns[i].sent == s.conns[i].sent && m.conns[i].tx == s.conns[i].tx;
      assert m.conns[i].stage == s.conns[i].stage;
    }

    method Seat(a: nat, b: nat)
      requires a < |conns| && b < |conns|
      modifies this
      ensures Now() == Lobbied(old(Now()), a, b, old(Ranked(a, b)))
    {
      var _ := MakeChannel(a, b, None);
      SetStage(a, InLobby);
      SetStage(b, InLobby);
    }

    method ReadLobbies(a: nat, b: nat)
      requires Steady(Now()) && Live(Now(), a) && Live(Now(), b) && a != b
      requires conns[a].stage == InLobby && conns[b].stage == InLobby && !conns[b].ready &&
               Opponent(Now(), a) == Some(b)
      modifies this
      ensures Steady(Now()) && |conns| == old(|conns|) && SameMatch(old(Now()), Now())
      ensures Reads2(old(Now()), Now(), a, P.OnRead(View(old(Now()), a)), b, P.OnRead(View(old(Now()), b)))
    {
      ghost var s := Now();
      ReadLobbyOf(a);
      ghost var t := Now();
      ReadLobbyOf(b);
      MatchTrans(s, t, Now());
      BothRead(s, t, Now(), a, b);
    }

    /** on_lobby for bytes that are already there. */
    method ReadLobbyOf(c: nat)
      requires Steady(Now()) && c < |conns| && (Live(Now(), c) ==> conns[c].stage == InLobby)
      modifies this
      ensures Steady(Now()) && |conns| == old(|conns|) && SameMatch(old(Now()), Now())
      ensures Reads(old(Now()), Now(), c, P.OnRead(View(old(Now()), c)))
      ensures old(Live(Now(), c) && PeerWaits(Now(), c)) ==> OpponentStays(old(Now()), Now(), c)
    {
      if conns[c].stage != Dead && |conns[c].rx| != 0 {
        OnLobby(c);
      } else {
        EmptyLobby(Now(), c);
        NobodyMoved(Now(), c);
      }
    }

    lemma NobodyMoved(s: Loop, c: nat)
      requires Links(s) && c < |s.conns|
      ensures SameMatch(s, s) && (Live(s, c) ==> OpponentStays(s, s, c))
    {
      if Live(s, c) { OpponentIsOther(s, c); }
    }

    // ---------------------------------------------------------------- first command

    /** The frames after the first command printed again, and the unparsed bytes behind them. */
    method KeepResidual(frames: seq<Frame>, k: nat, rest: seq<byte>) returns (rx: seq<byte>)
      requires k <= |frames|
      ensures rx == BuildAll(frames[k..]) + rest
    {
      var built: seq<byte> := [];
      var j := k;
      while j < |frames|
        invariant k <= j <= |frames| && built + BuildAll(frames[j..]) == BuildAll(frames[k..])
      {
        var next := j + 1;
        BuildAllNext(frames, j, next, built);
        built := built + BuildFrame(frames[j].ty, frames[j].payload);
        j := next;
      }
      assert frames[j..] == [] && built + [] == built;
      rx := built + rest;
    }

    lemma BuildAllNext(frames: seq<Frame>, j: nat, next: nat, built: seq<byte>)
      requires next == j + 1 && next <= |frames|
      ensures built + BuildAll(frames[j..]) ==
              (built + BuildFrame(frames[j].ty, frames[j].payload)) + BuildAll(frames[next..])
    {
      assert frames[j..][1..] == frames[next..];
      Associates(built, BuildFrame(frames[j].ty, frames[j].payload), BuildAll(frames[next..]));
    }

    /** The reading loop of on_first_frame: unknown frames and malformed ROOM_JOINs are
        skipped, the first command decides. */
    method FirstLoop(rx: seq<byte>) returns (r: First)
      ensures r == ReadFirst(rx)
    {
      var ok, rest, frames := ParseBuffer(rx);
      if !ok { return Violation; }
      var i := 0;
      while i < |frames|
        invariant i <= |frames| && FirstCommand(frames) == i + FirstCommand(frames[i..])
      {
        assert frames[i..][0] == frames[i] && frames[i..][1..] == frames[i + 1..];
        if IsCommand(frames[i]) {
          var left := KeepResidual(frames, i + 1, rest);
          return Obey(frames[i], left);
        }
        i := i + 1;
      }
      r := Waiting(rest);
    }

    /** on_first_frame: reads the buffer up to the first command and starts authentication;
        what follows the command stays in the buffer. */
    method OnFirstFrame(c: nat)
      requires Steady(Now()) && Live(Now(), c) && conns[c].stage == FirstFrame
      modifies this
      ensures Steady(Now()) && |conns| == old(|conns|)
      ensures ReadFirst(old(conns[c].rx)) in {Violation, Cancelled} ==> !Live(Now(), c)
      ensures ReadFirst(old(conns[c].rx)).Waiting? ==>
                Now() == Revised(old(Now()), c, old(conns[c]).(rx := ReadFirst(old(conns[c].rx)).rx), 0)
      ensures var r := ReadFirst(old(conns[c].rx));
              r.Chosen? && lim.meta && Live(Now(), c) ==>
                c in pendingAuth &&
                conns[c] == old(conns[c]).(stage := Auth, rx := r.rx, intent := r.intent, joinCode := r.code)
      ensures Reads(old(Now()), Now(), c, P.OnFirst(View(old(Now()), c)))
    {
      FirstFits(conns[c].rx);
      var r := FirstLoop(conns[c].rx);
      ActOn(c, r);
    }

    method ActOn(c: nat, r: First)
      requires Steady(Now()) && Live(Now(), c) && conns[c].stage == FirstFrame
      requires (r.Waiting? || r.Chosen? ==> |r.rx| <= RX_CAP) && r == ReadFirst(conns[c].rx)
      modifies this
      ensures Steady(Now()) && |conns| == old(|conns|)
      ensures r in {Violation, Cancelled} ==> !Live(Now(), c)
      ensures r.Waiting? ==> Now() == Revised(old(Now()), c, old(conns[c]).(rx := r.rx), 0)
      ensures r.Chosen? && lim.meta && Live(Now(), c) ==>
                c in pendingAuth &&
                conns[c] == old(conns[c]).(stage := Auth, rx := r.rx, intent := r.intent, joinCode := r.code)
      ensures Reads(old(Now()), Now(), c, P.OnFirst(View(old(Now()), c)))
    {
      match r
      case Violation => Dismiss(c);
      case Cancelled => Dismiss(c);
      case Waiting(rx) =>
        WaitingMoves(Now(), c, conns[c].(rx := rx));
        MovesReads(Now(), Revised(Now(), c, conns[c].(rx := rx), 0), c, P.OnFirst(View(Now(), c)));
        SetRx(c, rx, {});
      case Chosen(intent, code, token, rx) => Proceed(c, intent, code, token, rx);
    }

    method Dismiss(c: nat)
      requires Steady(Now()) && Live(Now(), c)
      modifies this
      ensures Steady(Now()) && |conns| == old(|conns|) && !Live(Now(), c)
      ensures Reads(old(Now()), Now(), c, P.OnFirst(View(old(Now()), c)))
    {
      ghost var s := Now();
      Drop(c, {});
      SettledFollows(s, Now());
    }

    /** The command is noted, what follows it kept, and authentication begins. */
    method Proceed(c: nat, intent: Intent, code: seq<byte>, token: seq<byte>, rx: seq<byte>)
      requires Steady(Now()) && Live(Now(), c) && conns[c].stage == FirstFrame && |rx| <= RX_CAP
      requires ReadFirst(conns[c].rx) == Chosen(intent, code, token, rx)
      modifies this
      ensures Steady(Now()) && |conns| == old(|conns|)
      ensures lim.meta && Live(Now(), c) ==>
                c in pendingAuth &&
                conns[c] == old(conns[c]).(stage := Auth, rx := rx, intent := intent, joinCode := code)
      ensures Reads(old(Now()), Now(), c, P.OnFirst(View(old(Now()), c)))
    {
      ghost var s, d := Now(), conns[c].(rx := rx, intent := intent, joinCode := code);
      assert StageOk(s, c);
      Choose(c, intent, code, rx);
      ghost var t := Now();
      BeginAuth(c, token);
      ChosenReads(s, c, d, Staged(t, c, Auth), Now());
    }

    method Choose(c: nat, intent: Intent, code: seq<byte>, rx: seq<byte>)
      requires Steady(Now()) && Live(Now(), c) && |rx| <= RX_CAP && conns[c].stage == FirstFrame
      modifies this
      ensures Steady(Now())
      ensures Now() == Revised(old(Now()), c, old(conns[c]).(rx := rx, intent := intent, joinCode := code), 0)
    {
      var d := conns[c].(rx := rx, intent := intent, joinCode := code);
      RewrittenWorking(Now(), c, d, {});
      conns := conns[c := d];
    }

    // ---------------------------------------------------------------- authentication

    method SetPending(c: nat, waiting: bool)
      modifies this`pendingAuth
      ensures Now() == Pending(old(Now()), c, waiting)
    {
      pendingAuth := if waiting then pendingAuth + {c} else pendingAuth - {c};
    }

    /** begin_auth: without a meta server everybody passes; with one, an empty token is
        refused, a full backlog is refused with a reason, and otherwise a worker verifies the
        token while the connection waits. */
    method BeginAuth(c: nat, token: seq<byte>)
      requires Steady(Now()) && Live(Now(), c) && conns[c].stage == FirstFrame
      modifies this
      ensures Steady(Now()) && |conns| == old(|conns|)
      ensures lim.meta && |token| == 0 ==> !Live(Now(), c)
      ensures lim.meta && old(|pendingAuth|) >= lim.maxPendingAuth ==> !Live(Now(), c)
      ensures lim.meta && Live(Now(), c) ==> c in pendingAuth && conns[c] == old(conns[c]).(stage := Auth)
      ensures Follows(Staged(old(Now()), c, Auth), Now())
      ensures !lim.meta ==> Effected(Staged(old(Now()), c, Auth), Now(), c)
    {
      EnterAuth(c);
      if !lim.meta {
        AfterAuth(c);
      } else if |token| == 0 {
        CutOff(c);
      } else if |pendingAuth| >= lim.maxPendingAuth {
        Turn(c);
      } else {
        AwaitAuth(c);
      }
    }

    /** A connection that waits for nothing is closed. */
    method CutOff(c: nat)
      requires Working(Now(), {c}) && Live(Now(), c)
      modifies this
      ensures Steady(Now()) && |conns| == old(|conns|) && !Live(Now(), c) && Follows(old(Now()), Now())
    {
      ghost var s := Now();
      Drop(c, {c});
      assert {c} - {c} == {};
      SettledFollows(s, Now());
    }

    /** Nothing refers to the connection yet, and it still holds its handshake slot. */
    ghost predicate Arriving(s: Loop, c: nat) {
      Unplaced(s, c) && s.conns[c].handshake && !s.conns[c].lease && s.conns[c].stage == Auth
    }

    method EnterAuth(c: nat)
      requires Steady(Now()) && Live(Now(), c) && conns[c].stage == FirstFrame
      modifies this
      ensures Working(Now(), {c}) && Arriving(Now(), c) && Now() == Staged(old(Now()), c, Auth)
    {
      AuthWorking(Now(), c);
      AuthArriving(Now(), c);
      SetStage(c, Auth);
    }

    lemma AuthWorking(s: Loop, c: nat)
      requires Steady(s) && Live(s, c) && s.conns[c].stage == FirstFrame
      ensures Working(Staged(s, c, Auth), {c})
    {
      NotWaiting(s, c);
      StagedWorking(s, c, Auth, {});
      assert {} + {c} == {c};
    }

    lemma AuthArriving(s: Loop, c: nat)
      requires Steady(s) && Live(s, c) && s.conns[c].stage == FirstFrame
      ensures Arriving(Staged(s, c, Auth), c)
    {
      assert StageOk(s, c);
      NotWaiting(s, c);
    }

    /** The authentication backlog is full. */
    method Turn(c: nat)
      requires Working(Now(), {c}) && Live(Now(), c)
      modifies this
      ensures Steady(Now()) && |conns| == old(|conns|) && !Live(Now(), c) && Follows(old(Now()), Now())
    {
      ghost var s := Now();
      InvWeaken(s, c);
      RejectConn(c, REASON_AUTH_BACKLOG, Ascii("server is busy authenticating, try again shortly"));
      RejectedSteady(s, Now(), c);
      SettledFollows(s, Now());
    }

    lemma RejectedSteady(s: Loop, t: Loop, c: nat)
      requires Working(s, {c}) && Settles(s, t) && Inv(t) && t.closing == s.closing && t.tearing == s.tearing
      requires c < |t.conns| && !Live(t, c)
      ensures Steady(t)
    {
      SettlesWorking(s, t, {c});
      DeadIsPlaced(t, {c}, c);
      assert {c} - {c} == {};
    }

    method AwaitAuth(c: nat)
      requires Working(Now(), {c}) && Arriving(Now(), c) && |pendingAuth| < lim.maxPendingAuth
      modifies this
      ensures Steady(Now()) && |conns| == old(|conns|) && Follows(old(Now()), Now())
      ensures Live(Now(), c) ==> c in pendingAuth && conns[c] == old(conns[c])
    {
      ghost var s := Now();
      PendingSteady(s, c);
      SetPending(c, true);
      ghost var t := Now();
      SameConnsFollows(s, t);
      var queued := OffloadAccepts();
      if !queued {
        Drop(c, {});
        SettledFollows(t, Now());
        FollowsTrans(s, t, Now());
      }
    }

    lemma PendingSteady(s: Loop, c: nat)
      requires Working(s, {c}) && Arriving(s, c) && |s.pendingAuth| < s.lim.maxPendingAuth
      ensures Steady(Pending(s, c, true))
    {
      assert Inv(Pending(s, c, true)) by { PendingKeeps(s, c, true); }
      PendingStages(s, c);
    }

    lemma PendingStages(s: Loop, c: nat)
      requires Stages(s, {c}) && Arriving(s, c)
      ensures Stages(Pending(s, c, true), {})
    {
      var t := Pending(s, c, true);
      InPlaceStages(s, t, c, {c});
      assert {c} + {c} == {c};
      assert StageOk(t, c);
      Placed(t, {c}, c);
      assert {c} - {c} == {};
    }

    /** resume_auth: the worker is back.  A connection gone meanwhile is ignored; a failed
        verification and a player id somebody else holds end the connection. */
    method ResumeAuth(c: nat, verified: Option<int>)
      requires Steady(Now()) && c < |conns| && (Live(Now(), c) ==> c in pendingAuth)
      modifies this
      ensures Steady(Now()) && |conns| == old(|conns|) && Follows(old(Now()), Now())
      ensures !old(Live(Now(), c)) ==> Now() == old(Now())
      ensures verified.None? || verified.value <= 0 || verified.value in old(leases) ==> !Live(Now(), c)
      ensures old(Live(Now(), c)) && verified.Some? && verified.value > 0 && verified.value !in old(leases) ==>
                Effected(Identified(Pending(old(Now()), c, false), c, verified.value), Now(), c)
    {
      ghost var s := Now();
      if conns[c].stage == Dead {
        DeadNotPending(s, c);
        SetPending(c, false);
        SameConnsFollows(s, Now());
        return;
      }
      assert StageOk(s, c) && ConnLinked(s, c);
      ReturnedWorking(s, c);
      SetPending(c, false);
      ghost var t := Now();
      SameConnsFollows(s, t);
      if verified.None? { CutOff(c); } else { Admitting(c, verified.value); }
      FollowsTrans(s, t, Now());
    }

    /** The player is known: if it gets its lease, its command takes effect. */
    method Admitting(c: nat, id: int)
      requires Working(Now(), {c}) && Arriving(Now(), c)
      modifies this
      ensures Steady(Now()) && |conns| == old(|conns|) && Follows(old(Now()), Now())
      ensures if id > 0 && id !in old(leases) then Effected(Identified(old(Now()), c, id), Now(), c)
              else !Live(Now(), c)
    {
      ghost var s := Now();
      Identify(c, id);
      ghost var t := Now();
      IdentifiedFollows(s, c, id);
      if !conns[c].lease { CutOff(c); } else { AfterAuth(c); }
      FollowsTrans(s, t, Now());
    }

    lemma DeadNotPending(s: Loop, c: nat)
      requires Steady(s) && c < |s.conns| && !Live(s, c)
      ensures Pending(s, c, false) == s
    {
      assert c !in s.pendingAuth;
      assert s.pendingAuth - {c} == s.pendingAuth;
    }

    lemma ReturnedWorking(s: Loop, c: nat)
      requires Steady(s) && Live(s, c) && c in s.pendingAuth
      ensures Working(Pending(s, c, false), {c}) && Arriving(Pending(s, c, false), c)
    {
      var t := Pending(s, c, false);
      assert StageOk(s, c);
      PendingKeeps(s, c, false);
      InPlaceStages(s, t, c, {});
      assert {} + {c} == {c};
    }

    /** The verified player takes the lease of its id, if it is free. */
    method Identify(c: nat, id: int)
      requires Working(Now(), {c}) && Arriving(Now(), c)
      modifies this
      ensures Working(Now(), {c}) && Live(Now(), c) && |conns| == old(|conns|) && Now() == Identified(old(Now()), c, id)
      ensures conns[c].lease ==> Unplaced(Now(), c)
      ensures conns[c].stage == Auth
      ensures conns[c].lease <==> id > 0 && id !in old(leases)
      ensures conns[c].lease ==> leases == old(leases)[id := c] && conns[c].playerId == id
    {
      IdentifiedIsWorking(Now(), c, id);
      TakeLease(c, id);
    }

    method TakeLease(c: nat, id: int)
      requires c < |conns|
      modifies this
      ensures Now() == Identified(old(Now()), c, id)
    {
      conns := conns[c := conns[c].(playerId := id)];
      if id > 0 && id !in leases {
        conns := conns[c := conns[c].(lease := true)];
        leases := leases[id := c];
      }
    }

    /** after_auth: the handshake slot goes back and the first command takes effect. */
    method AfterAuth(c: nat)
      requires Working(Now(), {c}) && Unplaced(Now(), c) && conns[c].stage == Auth
      modifies this
      ensures Steady(Now()) && |conns| == old(|conns|) && Follows(old(Now()), Now())
      ensures Effected(old(Now()), Now(), c)
    {
      ghost var s := Now();
      GreetedWorking(s, c);
      GreetedFollows(s, c);
      ReleaseHandshake(c);
      ghost var t := Now();
      match conns[c].intent {
        case ToQueue => EnterQueue(c);
        case ToCreateRoom => RoomCreate(c);
        case ToJoinRoom => RoomJoin(c);
      }
      FollowsTrans(s, t, Now());
    }

    /** c's command has taken effect: into the queue, alone or against whoever waits there,
        unless it has cancelled; into a room it creates, or as the guest of the room it
        names. */
    ghost predicate Effected(s: Loop, t: Loop, c: nat)
      requires c < |s.conns|
    {
      match s.conns[c].intent
      case ToQueue =>
        if !StaysQueued(s.conns[c].rx) then !Live(t, c)
        else if |s.queue| == 0 then t == Enqueued(Staged(Greeted(s, c), c, Queued), c)
        else |s.queue| == 1 ==> Rivals(t, s.queue[0], c, |s.chanAt|)
      case ToCreateRoom => HostOf(s, t, c)
      case ToJoinRoom => GuestOf(s, t, c)
    }

    /** The host of a new room, or in a match from it. */
    ghost predicate HostOf(s: Loop, t: Loop, c: nat) {
      Live(t, c) && t.conns[c].room.Some? ==> t.conns[c].room == Some(|s.roomAt|) && t.conns[c].isHost
    }

    /** The guest of the open room with the code it gave, or in a match from it; refused if
        there is no such room or somebody is there already. */
    ghost predicate GuestOf(s: Loop, t: Loop, c: nat)
      requires c < |s.conns|
    {
      Live(t, c) ==> s.conns[c].joinCode in s.rooms && s.rooms[s.conns[c].joinCode] < |s.roomAt| &&
                     s.roomAt[s.rooms[s.conns[c].joinCode]].guest.None? &&
                     (t.conns[c].room.Some? ==>
                       t.conns[c].room == Some(s.rooms[s.conns[c].joinCode]) && !t.conns[c].isHost)
    }

    method ReleaseHandshake(c: nat)
      requires c < |conns|
      modifies this
      ensures Now() == Greeted(old(Now()), c)
    {
      handshakes := if conns[c].handshake then Release(handshakes, conns[c].ip) else handshakes;
      conns := conns[c := conns[c].(handshake := false)];
    }

    lemma GreetedWorking(s: Loop, c: nat)
      requires Working(s, {c}) && Unplaced(s, c)
      ensures Working(Greeted(s, c), {c}) && Unplaced(Greeted(s, c), c) && !Greeted(s, c).conns[c].handshake
    {
      GreetedKeeps(s, c);
      InPlaceStages(s, Greeted(s, c), c, {c});
      assert {c} + {c} == {c};
    }

    // ---------------------------------------------------------------- rooms

    /** generate_code: a random code nobody uses; gives up after 32 attempts. */
    method GenerateCode() returns (code: Option<seq<byte>>)
      ensures code.Some? ==> IsCode(code.value) && code.value !in rooms
    {
      var attempt := 0;
      while attempt < 32 {
        var drawn := DrawCode();
        if drawn !in rooms { return Some(drawn); }
        attempt := attempt + 1;
      }
      code := None;
    }

    /** Five characters of the alphabet. */
    method DrawCode() returns (code: seq<byte>)
      ensures IsCode(code)
    {
      code := [];
      while |code| < CODE_LENGTH
        invariant |code| <= CODE_LENGTH && forall i :: 0 <= i < |code| ==> InAlphabet(code[i])
      {
        var x: nat := *;
        var k := x % |CODE_ALPHABET|;
        assert InAlphabet(CODE_ALPHABET[k] as int);
        code := code + [CODE_ALPHABET[k] as int];
      }
    }

    method OpenRoom(c: nat, code: seq<byte>)
      requires c < |conns|
      modifies this
      ensures Now() == RoomCreated(old(Now()), c, code)
    {
      var r := |roomAt|;
      roomAt := roomAt + [Room(code, Some(c), None)];
      rooms := rooms[code := r];
      conns := conns[c := conns[c].(room := Some(r), isHost := true, stage := InRoom)];
    }

    method TakeGuestSlot(c: nat, r: nat)
      requires c < |conns| && r < |roomAt|
      modifies this
      ensures Now() == RoomJoined(old(Now()), c, r)
    {
      roomAt := roomAt[r := roomAt[r].(guest := Some(c))];
      conns := conns[c := conns[c].(room := Some(r), isHost := false, stage := InRoom)];
    }

    lemma HousedSteady(s: Loop, t: Loop, c: nat)
      requires Working(s, {c}) && Unplaced(s, c) && !s.conns[c].handshake && Inv(t)
      requires |t.conns| == |s.conns| && t.conns == s.conns[c := t.conns[c]]
      requires t.conns[c].stage == InRoom && Known(t.conns[c]) && t.conns[c].room.Some? && t.conns[c].ch.None?
      requires !t.conns[c].handshake && MindOk(t.conns[c])
      requires t == s.(conns := t.conns, roomAt := t.roomAt, rooms := t.rooms)
      ensures Steady(t)
    {
      HousedStages(s, t, c, {c});
      assert {c} + {c} == {c};
      assert StageOk(t, c);
      Placed(t, {c}, c);
      assert {c} - {c} == {};
    }

    /** room_create */
    method RoomCreate(c: nat)
      requires Working(Now(), {c}) && Unplaced(Now(), c) && !conns[c].handshake && conns[c].intent != ToQueue
      modifies this
      ensures Steady(Now()) && |conns| == old(|conns|) && Follows(old(Now()), Now())
      ensures HostOf(old(Now()), Now(), c)
    {
      ghost var s := Now();
      var code := GenerateCode();
      if code.None? {
        CutOff(c);
        return;
      }
      OpenRoomFor(c, code.value);
      ghost var t := Now();
      ReadRoomOf(c);
      FollowsTrans(s, t, Now());
    }

    /** The host waits in its new room, and is told the code. */
    method OpenRoomFor(c: nat, code: seq<byte>)
      requires Working(Now(), {c}) && Unplaced(Now(), c) && !conns[c].handshake && code !in rooms
      requires conns[c].intent != ToQueue
      modifies this
      ensures Steady(Now()) && |conns| == old(|conns|) && Follows(old(Now()), Now())
      ensures Live(Now(), c) ==>
                conns[c].stage == InRoom && conns[c].isHost && conns[c].room == Some(old(|roomAt|)) &&
                conns[c].rx == old(conns[c].rx)
      ensures Heard(old(Now()), Now(), c, RoomInfo(code, STATUS_WAITING, 1))
    {
      ghost var s := Now();
      OffFollows(s, RoomCreated(s, c, code), c);
      House(c, code);
      ghost var t := Now();
      InformHoused(c, code, 1);
      FollowsTrans(s, t, Now());
      EvolvesConn(t, Now(), c);
    }

    method House(c: nat, code: seq<byte>)
      requires Working(Now(), {c}) && Unplaced(Now(), c) && !conns[c].handshake && code !in rooms
      requires conns[c].intent != ToQueue
      modifies this
      ensures Steady(Now()) && Now() == RoomCreated(old(Now()), c, code)
    {
      ghost var s := Now();
      RoomCreatedKeeps(s, c, code);
      HousedSteady(s, RoomCreated(s, c, code), c);
      OpenRoom(c, code);
    }

    /** send_room_info between two steps of a handler. */
    method Inform(c: nat, code: seq<byte>, status: byte, peers: byte, ghost moving: set<nat>)
      requires Working(Now(), moving) && Tellable(Now(), c, moving)
      modifies this
      ensures Working(Now(), moving) && Sends(old(Now()), Now(), Some(c))
      ensures Heard(old(Now()), Now(), c, RoomInfo(code, status, peers))
      ensures refused == old(refused) ==> Delivered(old(Now()), Now(), c, RoomInfo(code, status, peers))
    {
      ghost var s := Now();
      SendRoomInfo(c, code, status, peers);
      PeerWorking(s, Now(), Some(c), moving);
    }

    /** ... to an occupant of a room. */
    method InformHoused(c: nat, code: seq<byte>, peers: byte)
      requires Steady(Now()) && Housed(Now(), c)
      modifies this
      ensures Steady(Now()) && Evolves(old(Now()), Now()) && Goes(old(Now()), Now())
      ensures Heard(old(Now()), Now(), c, RoomInfo(code, STATUS_WAITING, peers))
      ensures refused == old(refused) ==> Delivered(old(Now()), Now(), c, RoomInfo(code, STATUS_WAITING, peers))
    {
      ghost var s := Now();
      HousedIsTellable(s, c);
      Inform(c, code, STATUS_WAITING, peers, {});
      InformedGoes(s, Now(), Some(c));
    }

    lemma HousedIsTellable(s: Loop, c: nat)
      requires Stages(s, {}) && Housed(s, c)
      ensures Tellable(s, c, {})
    {
      if Live(s, c) { PlacedIsTellable(s, c, {}); }
    }

    /** room_join: an unknown code and a full room are answered and end the connection. */
    method RoomJoin(c: nat)
      requires Working(Now(), {c}) && Unplaced(Now(), c) && !conns[c].handshake && conns[c].intent != ToQueue
      modifies this
      ensures Steady(Now()) && |conns| == old(|conns|) && Follows(old(Now()), Now())
      ensures GuestOf(old(Now()), Now(), c)
      ensures old(conns[c].joinCode !in rooms) ==>
                TurnedAway(old(Now()), Now(), c, RoomInfo(old(conns[c].joinCode), STATUS_NOT_FOUND, 0))
      ensures old(conns[c].joinCode in rooms && RoomFull(conns[c].joinCode)) ==>
                TurnedAway(old(Now()), Now(), c, RoomInfo(old(conns[c].joinCode), STATUS_FULL, 1))
    {
      ghost var s := Now();
      var code := conns[c].joinCode;
      if code !in rooms {
        TurnAway(c, code, STATUS_NOT_FOUND, 0);
        return;
      }
      var r := rooms[code];
      if roomAt[r].guest.Some? || roomAt[r].host.None? {
        TurnAway(c, code, STATUS_FULL, if roomAt[r].host.Some? then 1 else 0);
        return;
      }
      Enter(c, r, code);
    }

    ghost predicate RoomFull(code: seq<byte>)
      requires code in rooms
      reads this
    {
      rooms[code] < |roomAt| && roomAt[rooms[code]].host.Some? && roomAt[rooms[code]].guest.Some?
    }

    /** Into the free slot. */
    method Enter(c: nat, r: nat, code: seq<byte>)
      requires Working(Now(), {c}) && Unplaced(Now(), c) && !conns[c].handshake && conns[c].intent != ToQueue
      requires RoomOpen(Now(), r) && roomAt[r].guest.None? && roomAt[r].host.Some?
      modifies this
      ensures Steady(Now()) && |conns| == old(|conns|) && Follows(old(Now()), Now())
      ensures Live(Now(), c) && conns[c].room.Some? ==> conns[c].room == Some(r) && !conns[c].isHost
    {
      ghost var s := Now();
      OffFollows(s, RoomJoined(s, c, r), c);
      Join(c, r);
      ghost var t := Now();
      Welcome(c, r, code);
      FollowsTrans(s, t, Now());
    }

    /** Both occupants hear that they are two; what they have already sent is read. */
    method Welcome(c: nat, r: nat, code: seq<byte>)
      requires Steady(Now()) && Housed(Now(), c) && r < |roomAt| && roomAt[r].host.Some?
      modifies this
      ensures Steady(Now()) && |conns| == old(|conns|) && Goes(old(Now()), Now())
    {
      ghost var s := Now();
      SlotIsHoused(s, r, true);
      TellBoth(roomAt[r].host.value, c, code);
      ghost var t := Now();
      var host := roomAt[r].host;
      if host.Some? { SlotIsLive(t, r, true); }
      ReadRooms(c, host);
      GoesTrans(s, t, Now());
    }

    method TellBoth(host: nat, c: nat, code: seq<byte>)
      requires Steady(Now()) && Housed(Now(), host) && Housed(Now(), c)
      modifies this
      ensures Steady(Now()) && Evolves(old(Now()), Now()) && Goes(old(Now()), Now())
      ensures refused == old(refused) && host != c ==>
                BothHeard(old(Now()), Now(), host, c, RoomInfo(code, STATUS_WAITING, 2))
    {
      ghost var s := Now();
      InformHoused(host, code, 2);
      ghost var t := Now();
      HousedEvolves(s, t, c);
      InformHoused(c, code, 2);
      GoesTrans(s, t, Now());
      EvolvesTrans(s, t, Now());
      BothDelivered(s, t, Now(), host, c, RoomInfo(code, STATUS_WAITING, 2));
    }

    lemma BothDelivered(s: Loop, t: Loop, u: Loop, a: nat, b: nat, frame: seq<byte>)
      requires s.refused <= t.refused <= u.refused
      requires t.refused == s.refused ==> Delivered(s, t, a, frame)
      requires u.refused == t.refused ==> Delivered(t, u, b, frame)
      ensures a != b && u.refused == s.refused ==> BothHeard(s, u, a, b, frame)
    {}

    /** Both streams have grown by exactly the frame. */
    ghost predicate BothHeard(s: Loop, t: Loop, a: nat, b: nat, frame: seq<byte>) {
      a < |s.conns| == |t.conns| && b < |s.conns| &&
      Stream(t, a) == Stream(s, a) + frame && Stream(t, b) == Stream(s, b) + frame
    }

    lemma SlotIsHoused(s: Loop, r: nat, host: bool)
      requires Links(s) && r < |s.roomAt| && Slot(s.roomAt[r], host).Some?
      ensures Live(s, Slot(s.roomAt[r], host).value) && Housed(s, Slot(s.roomAt[r], host).value)
    {
      assert SlotLinked(s, r, host);
    }

    method TurnAway(c: nat, code: seq<byte>, status: byte, peers: byte)
      requires Working(Now(), {c}) && c < |conns|
      modifies this
      ensures Steady(Now()) && |conns| == old(|conns|) && Follows(old(Now()), Now())
      ensures TurnedAway(old(Now()), Now(), c, RoomInfo(code, status, peers))
    {
      ghost var s := Now();
      Inform(c, code, status, peers, {c});
      ghost var t := Now();
      HangUp(c);
      TurnedSettles(s, t, Now(), c);
      SettledFollows(s, Now());
      IsTurnedAway(s, t, Now(), c, RoomInfo(code, status, peers));
    }

    lemma IsTurnedAway(s: Loop, t: Loop, u: Loop, c: nat, frame: seq<byte>)
      requires c < |s.conns| == |t.conns| && |u.conns| == |s.conns| && s.refused <= t.refused <= u.refused
      requires t.refused == s.refused ==> Delivered(s, t, c, frame)
      requires !Live(u, c) && u.conns[c].sent == t.conns[c].sent
      ensures TurnedAway(s, u, c, frame)
    {}

    method HangUp(c: nat)
      requires Working(Now(), {c}) && c < |conns|
      modifies this
      ensures Steady(Now()) && Settles(old(Now()), Now()) && !Live(Now(), c) && conns[c].sent == old(conns[c].sent)
    {
      Drop(c, {c});
      assert {c} - {c} == {};
    }

    /** c is gone, and unless a send failed was told nothing but the frame, as far as the kernel
        took it. */
    ghost predicate TurnedAway(s: Loop, t: Loop, c: nat, frame: seq<byte>) {
      c < |s.conns| == |t.conns| && !Live(t, c) &&
      (t.refused == s.refused ==> t.conns[c].sent <= Stream(s, c) + frame)
    }

    method Join(c: nat, r: nat)
      requires Working(Now(), {c}) && Unplaced(Now(), c) && !conns[c].handshake && conns[c].intent != ToQueue
      requires RoomOpen(Now(), r) && roomAt[r].guest.None?
      modifies this
      ensures Steady(Now()) && Now() == RoomJoined(old(Now()), c, r)
    {
      ghost var s := Now();
      RoomJoinedKeeps(s, c, r);
      HousedSteady(s, RoomJoined(s, c, r), c);
      TakeGuestSlot(c, r);
    }

    method ReadRooms(c: nat, host: Option<nat>)
      requires Steady(Now()) && c < |conns| && (host.Some? ==> host.value < |conns|)
      modifies this
      ensures Steady(Now()) && |conns| == old(|conns|) && Goes(old(Now()), Now())
    {
      ghost var s := Now();
      ReadRoomOf(c);
      ghost var t := Now();
      if host.Some? {
        ReadRoomOf(host.value);
        GoesTrans(s, t, Now());
      }
    }

    method ReadRoomOf(c: nat)
      requires Steady(Now()) && c < |conns|
      modifies this
      ensures Steady(Now()) && |conns| == old(|conns|) && Goes(old(Now()), Now())
      ensures old(|conns[c].rx|) == 0 ==> Now() == old(Now())
    {
      GoesSelf(Now());
      if |conns[c].rx| != 0 { ghost var _, _ := OnRoom(c); }
    }

    /** on_room: READY and CHAT are passed to the other occupant, ROOM_LEAVE ends the
        connection, and two ready players start their match. */
    method OnRoom(c: nat) returns (ghost done: bool, ghost started: bool)
      requires Steady(Now()) && c < |conns|
      modifies this
      ensures Steady(Now()) && |conns| == old(|conns|) && Goes(old(Now()), Now())
      ensures old(Live(Now(), c) && conns[c].room.Some?) ==>
                (Departs(old(conns[c].rx)) ==> !Live(Now(), c))
      ensures Judged(old(Now()), Now(), c, old(Live(Now(), c) && conns[c].room.Some?) && Departs(old(conns[c].rx)))
      ensures old(Live(Now(), c) && conns[c].room.Some?) && Parse(old(conns[c].rx)).ok ==>
                RoomRead(old(Now()), Now(), c, Parse(old(conns[c].rx)).frames, done, started)
    {
      ghost var s := Now();
      done, started := false, false;
      GoesSelf(s);
      if conns[c].stage == Dead || conns[c].room.None? { return; }
      assert ConnLinked(s, c);
      var r := conns[c].room.value;
      var ok, rest, frames := ParseBuffer(conns[c].rx);
      ParseShorter(conns[c].rx);
      RoomCircle(s, c, r);
      if ok {
        done, started := ReadFrames(c, r, rest, frames);
      } else {
        Drop(c, {});
        SettledGoes(s, Now());
      }
    }

    /** c's frames have been read in its room.  Unless c left: if a match started, c, and the
        other occupant if every send got through, forwards or is closed; if none started, not
        both occupants are ready, and the other one got exactly what it is to see, if every
        send got through. */
    ghost predicate RoomRead(s: Loop, t: Loop, c: nat, frames: seq<Frame>, done: bool, started: bool)
      requires c < |s.conns| && s.conns[c].room.Some?
    {
      var r, host := s.conns[c].room.value, !s.conns[c].isHost;
      !Leaves(frames) ==>
        (if started then Forwards(t, c) else r < |t.roomAt| && !BothWilling(t, r)) &&
        (done || s.refused < t.refused) && (r < |s.roomAt| ==> RoomStarts(s, t, c, r, frames)) &&
        forall p: nat :: done && Occupies(s, p, r, host) ==>
          if started then Forwards(t, p) else Relayed(s, t, p, r, host, RelayAll(frames))
    }

    /** With everybody in the room still there, the match has started exactly if both have agreed
        to it; otherwise they are in the room as before, c as ready as its last READY says. */
    ghost predicate RoomStarts(s: Loop, t: Loop, c: nat, r: nat, frames: seq<Frame>)
      requires c < |s.conns| && r < |s.roomAt|
    {
      var p := PartnerOr(s, c, r);
      Stayed(s, t, r) ==>
        c < |t.conns| && p < |t.conns| &&
        if RoomAgrees(s, c, r, frames) then t.conns[c].stage == Forwarding && t.conns[p].stage == Forwarding
        else Tallied(s, t, c, p, frames)
    }

    ghost predicate Stayed(s: Loop, t: Loop, r: nat)
      requires r < |s.roomAt|
    {
      Rooming(s, r) <= LiveSet(t.conns)
    }

    /** The other slot is taken, by somebody ready, and the last READY of c is READY(1). */
    ghost predicate RoomAgrees(s: Loop, c: nat, r: nat, frames: seq<Frame>)
      requires c < |s.conns| && r < |s.roomAt|
    {
      var p := Slot(s.roomAt[r], !s.conns[c].isHost);
      LastReady(frames, s.conns[c].ready) && p.Some? && p.value < |s.conns| && s.conns[p.value].ready
    }

    /** c and p are where they were, c as ready as its last READY says, p as before. */
    ghost predicate Tallied(s: Loop, t: Loop, c: nat, p: nat, frames: seq<Frame>) {
      c < |s.conns| == |t.conns| && t.conns[c].ready == LastReady(frames, s.conns[c].ready) &&
      (p < |s.conns| && p != c ==> t.conns[p].ready == s.conns[p].ready) && Remains(s, t, c, frames) &&
      (p != c ==> Remains(s, t, p, []))
    }

    ghost predicate Remains(s: Loop, t: Loop, i: nat, frames: seq<Frame>) {
      i < |s.conns| == |t.conns| && Live(t, i) ==>
        t.conns[i].room == s.conns[i].room && t.conns[i].isHost == s.conns[i].isHost &&
        t.conns[i].heard == s.conns[i].heard + frames
    }

    /** Reading frames in room r: they are noted, and as long as everybody stays they alone say
        how ready c is. */
    ghost predicate Tallies(s: Loop, t: Loop, c: nat, p: nat, r: nat, frames: seq<Frame>) {
      r < |s.roomAt| && c < |s.conns| == |t.conns| && Remains(s, t, c, frames) && (p != c ==> Remains(s, t, p, [])) &&
      (Stayed(s, t, r) ==> Tallied(s, t, c, p, frames))
    }

    lemma TalliesNothing(s: Loop, t: Loop, c: nat, p: nat, r: nat)
      requires Evolves(s, t) && r < |s.roomAt| && c < |s.conns| && (Stayed(s, t, r) ==> SameReady(s, t))
      ensures Tallies(s, t, c, p, r, [])
    {
      RemainsEvolves(s, t, c);
      RemainsEvolves(s, t, p);
    }

    lemma RemainsEvolves(s: Loop, t: Loop, i: nat)
      requires Evolves(s, t)
      ensures Remains(s, t, i, [])
    {
      if Live(t, i) {
        EvolvesConn(s, t, i);
        assert s.conns[i].heard + [] == s.conns[i].heard;
      }
    }

    lemma TalliesTrans(s: Loop, t: Loop, u: Loop, c: nat, p: nat, r: nat, xs: seq<Frame>, ys: seq<Frame>,
                       all: seq<Frame>)
      requires Tallies(s, t, c, p, r, xs) && Tallies(t, u, c, p, r, ys) && SameHouse(t, u) && all == xs + ys
      requires Rooming(t, r) <= Rooming(s, r)
      ensures Tallies(s, u, c, p, r, all)
    {
      assert LiveSet(u.conns) <= LiveSet(t.conns);
      LastReadyAppend(xs, ys, s.conns[c].ready);
      assert (s.conns[c].heard + xs) + ys == s.conns[c].heard + all;
    }

    /** Corrupt, or with a ROOM_LEAVE in it. */
    ghost predicate Departs(rx: seq<byte>) { !Parse(rx).ok || Leaves(Parse(rx).frames) }

    /** Both slots taken, both occupants ready. */
    ghost predicate BothWilling(s: Loop, r: nat)
      requires r < |s.roomAt|
    {
      s.roomAt[r].host.Some? && s.roomAt[r].guest.Some? &&
      s.roomAt[r].host.value < |s.conns| && s.conns[s.roomAt[r].host.value].ready &&
      s.roomAt[r].guest.value < |s.conns| && s.conns[s.roomAt[r].guest.value].ready
    }

    method ReadFrames(c: nat, r: nat, rest: seq<byte>, frames: seq<Frame>)
      returns (ghost done: bool, ghost started: bool)
      requires Steady(Now()) && Live(Now(), c) && conns[c].room == Some(r) && r < |roomAt| && |rest| <= RX_CAP
      modifies this
      ensures Steady(Now()) && |conns| == old(|conns|) && Goes(old(Now()), Now())
      ensures Leaves(frames) ==> !Live(Now(), c)
      ensures Spares(old(Now()), Now(), old(Rooming(Now(), r)))
      ensures !Leaves(frames) ==> OnFailure(old(Now()), Now(), old(Rooming(Now(), r)))
      ensures RoomRead(old(Now()), Now(), c, frames, done, started)
    {
      ghost var s := Now();
      ghost var p: nat := PartnerOr(s, c, r);
      var left;
      left, done := ReadThrough(c, r, rest, frames, p);
      ghost var t := Now();
      started := BothWilling(t, r);
      if left {
        LeftIsRead(s, t, c, frames, done, started);
      } else {
        StartRead(c, r, p, frames, done, s);
      }
    }

    /** Everything is read: the match starts, if both are ready now. */
    method StartRead(c: nat, r: nat, ghost p: nat, ghost frames: seq<Frame>, ghost done: bool, ghost s: Loop)
      requires Links(s) && Live(s, c) && s.conns[c].room == Some(r) && r < |s.roomAt| && p == PartnerOr(s, c, r)
      requires Steady(Now()) && ReadIn(s, Now(), c, r, s.conns[c].isHost, p, done, frames)
      modifies this
      ensures Steady(Now()) && |conns| == |s.conns| && Goes(s, Now()) && OnFailure(s, Now(), Rooming(s, r))
      ensures RoomRead(s, Now(), c, frames, done, BothWilling(old(Now()), r))
    {
      ghost var t := Now();
      StartIfRoomReady(r);
      StartIsRead(s, t, Now(), c, r, p, frames, done);
    }

    lemma StartIsRead(s: Loop, t: Loop, u: Loop, c: nat, r: nat, p: nat, frames: seq<Frame>, done: bool)
      requires Links(s) && Links(t) && Live(s, c) && s.conns[c].room == Some(r) && r < |s.roomAt|
      requires p == PartnerOr(s, c, r) && ReadIn(s, t, c, r, s.conns[c].isHost, p, done, frames) && Goes(t, u)
      requires RoomStarted(t, u, r) && OnFailure(t, u, Rooming(t, r))
      ensures Goes(s, u) && OnFailure(s, u, Rooming(s, r)) && RoomRead(s, u, c, frames, done, BothWilling(t, r))
    {
      OnFailureTrans(s, t, u, Rooming(s, r), Rooming(t, r));
      GoesTrans(s, t, u);
      RoomHasStarted(s, t, u, c, r, p, frames);
      RoomIsRead(s, t, u, c, r, p, frames, done);
    }

    /** The other occupant, or c. */
    ghost function PartnerOr(s: Loop, c: nat, r: nat): nat
      requires c < |s.conns| && r < |s.roomAt|
    {
      var peer := Slot(s.roomAt[r], !s.conns[c].isHost);
      if peer.Some? then peer.value else c
    }

    method ReadThrough(c: nat, r: nat, rest: seq<byte>, frames: seq<Frame>, ghost p: nat)
      returns (left: bool, ghost done: bool)
      requires Steady(Now()) && Live(Now(), c) && conns[c].room == Some(r) && r < |roomAt| && |rest| <= RX_CAP
      modifies this
      ensures Steady(Now()) && |conns| == old(|conns|) && |roomAt| == old(|roomAt|) && Goes(old(Now()), Now())
      ensures left == Leaves(frames)
      ensures if left then !Live(Now(), c) && Spares(old(Now()), Now(), old(Rooming(Now(), r)))
              else ReadIn(old(Now()), Now(), c, r, old(conns[c].isHost), p, done, frames)
    {
      ghost var s := Now();
      var isHost := conns[c].isHost;
      TakeRest(c, r, rest, p);
      ghost var t := Now();
      left, done := RoomLoop(c, r, isHost, frames, p);
      ReadFromStart(s, t, Now(), c, r, isHost, p, done, frames, left);
    }

    method TakeRest(c: nat, r: nat, rest: seq<byte>, ghost p: nat)
      requires Steady(Now()) && Live(Now(), c) && conns[c].room == Some(r) && r < |roomAt| && |rest| <= RX_CAP
      modifies this
      ensures Steady(Now()) && ReadIn(old(Now()), Now(), c, r, old(conns[c].isHost), p, true, [])
      ensures Live(Now(), c) && conns[c].room == Some(r) && Rooming(Now(), r) == old(Rooming(Now(), r))
    {
      RxReadIn(Now(), c, conns[c].(rx := rest), r, conns[c].isHost, p);
      SetRx(c, rest, {});
    }

    lemma ReadFromStart(s: Loop, t: Loop, u: Loop, c: nat, r: nat, isHost: bool, p: nat, done: bool,
                        frames: seq<Frame>, left: bool)
      requires ReadIn(s, t, c, r, isHost, p, true, []) && Rooming(t, r) == Rooming(s, r) && Goes(t, u)
      requires if left then Spares(t, u, Rooming(t, r)) else ReadIn(t, u, c, r, isHost, p, done, frames)
      ensures Goes(s, u)
      ensures if left then Spares(s, u, Rooming(s, r)) else ReadIn(s, u, c, r, isHost, p, done, frames)
    {
      GoesTrans(s, t, u);
      if left {
        SparesTrans(s, t, u, Rooming(s, r), Rooming(t, r));
      } else {
        assert RelayAll([]) + RelayAll(frames) == RelayAll(frames);
        ReadInTrans(s, t, u, c, r, isHost, p, true, [], done, frames, frames);
      }
    }

    /** From s to t the frames seen have been read in room r: unless a send failed, the other
        occupant got exactly what it is to see of them. */
    ghost predicate ReadIn(s: Loop, t: Loop, c: nat, r: nat, isHost: bool, p: nat, done: bool, seen: seq<Frame>) {
      |t.conns| == |s.conns| && r < |t.roomAt| == |s.roomAt| && Goes(s, t) && Housed(t, c) && Passing(s, t, r) &&
      (done ==> Relayed(s, t, p, r, !isHost, RelayAll(seen))) && (done || s.refused < t.refused) &&
      Tallies(s, t, c, p, r, seen)
    }

    lemma ReadInTrans(s: Loop, t: Loop, u: Loop, c: nat, r: nat, isHost: bool, p: nat, before: bool, xs: seq<Frame>,
                      done: bool, ys: seq<Frame>, all: seq<Frame>)
      requires ReadIn(s, t, c, r, isHost, p, before, xs) && ReadIn(t, u, c, r, isHost, p, done, ys)
      requires all == xs + ys && RelayAll(all) == RelayAll(xs) + RelayAll(ys)
      ensures ReadIn(s, u, c, r, isHost, p, before && done, all)
    {
      GoesTrans(s, t, u);
      PassingTrans(s, t, u, r);
      TalliesTrans(s, t, u, c, p, r, xs, ys, all);
      if before && done { RelayedThen(s, t, u, p, r, !isHost, RelayAll(xs), RelayAll(ys)); }
    }

    lemma RxReadIn(s: Loop, c: nat, d: Conn, r: nat, isHost: bool, p: nat)
      requires Links(s) && Live(s, c) && Housed(s, c) && d == s.conns[c].(rx := d.rx) && r < |s.roomAt|
      ensures ReadIn(s, Revised(s, c, d, 0), c, r, isHost, p, true, [])
    {
      OccupantGoes(s, c, d);
      FramesRelayed(s, c, d, p, r, !isHost);
      RxTallies(s, c, d, p, r);
      SameLiveSpares(s, Revised(s, c, d, 0), Rooming(s, r));
    }

    lemma LeftIsRead(s: Loop, t: Loop, c: nat, frames: seq<Frame>, done: bool, started: bool)
      requires c < |s.conns| && s.conns[c].room.Some? && Leaves(frames)
      ensures RoomRead(s, t, c, frames, done, started)
    {}

    lemma FramesRelayed(s: Loop, c: nat, d: Conn, p: nat, r: nat, host: bool)
      requires c < |s.conns| && d == s.conns[c].(rx := d.rx)
      ensures var t := Revised(s, c, d, 0);
              LiveSet(t.conns) == LiveSet(s.conns) && Relayed(s, t, p, r, host, [])
    {
      var t := Revised(s, c, d, 0);
      assert LiveSet(t.conns) == LiveSet(s.conns);
      if p < |s.conns| { assert Stream(s, p) + [] == Stream(s, p); }
    }

    lemma RxTallies(s: Loop, c: nat, d: Conn, p: nat, r: nat)
      requires c < |s.conns| && d == s.conns[c].(rx := d.rx) && r < |s.roomAt|
      ensures Tallies(s, Revised(s, c, d, 0), c, p, r, [])
    {
      assert d.heard + [] == d.heard;
      if p < |s.conns| { assert s.conns[p].heard + [] == s.conns[p].heard; }
    }

    /** With everybody still there, both are ready now exactly if they have agreed. */
    lemma RoomHasStarted(s: Loop, u: Loop, v: Loop, c: nat, r: nat, p: nat, frames: seq<Frame>)
      requires Links(s) && Links(u) && Live(s, c) && s.conns[c].room == Some(r) && Housed(u, c) && SameHouse(s, u)
      requires r < |s.roomAt| && r < |u.roomAt| && SameHouse(u, v) && p == PartnerOr(s, c, r)
      requires Rooming(u, r) <= Rooming(s, r) && Tallies(s, u, c, p, r, frames)
      requires RoomStarted(u, v, r)
      ensures RoomStarts(s, v, c, r, frames)
    {
      if Stayed(s, v, r) {
        assert LiveSet(v.conns) <= LiveSet(u.conns);
        assert ConnLinked(s, c) && SlotLinked(s, r, true) && SlotLinked(s, r, false);
        assert c in Rooming(s, r) && p in Rooming(s, r);
        assert ConnLinked(u, c) && ConnLinked(u, p) && SlotLinked(u, r, !s.conns[c].isHost);
        assert c in LiveSet(v.conns) && p in LiveSet(v.conns);
      }
    }

    lemma RoomIsRead(s: Loop, u: Loop, v: Loop, c: nat, r: nat, p: nat, frames: seq<Frame>, done: bool)
      requires Links(s) && Links(u) && Live(s, c) && s.conns[c].room == Some(r) && Housed(u, c) && SameHouse(s, u)
      requires r < |s.roomAt| && r < |u.roomAt| && SameHouse(u, v) && p == PartnerOr(s, c, r)
      requires done ==> Relayed(s, u, p, r, !s.conns[c].isHost, RelayAll(frames))
      requires RoomStarts(s, v, c, r, frames) && u.refused <= v.refused && (done || s.refused < u.refused)
      requires RoomStarted(u, v, r)
      ensures RoomRead(s, v, c, frames, done, BothWilling(u, r))
    {
      var host := !s.conns[c].isHost;
      assert ConnLinked(u, c);
      forall q: nat | done && Occupies(s, q, r, host)
        ensures if BothWilling(u, r) then Forwards(v, q) else Relayed(s, v, q, r, host, RelayAll(frames))
      {
        PeerIs(s, q, r, host);
        PeerIs(u, q, r, host);
      }
    }

    predicate Leaves(fs: seq<Frame>) {
      exists i :: 0 <= i < |fs| && fs[i].ty == ROOM_LEAVE
    }

    function ReadyValue(payload: seq<byte>): byte { if SaysReady(payload) then 1 else 0 }

    /** What the other occupant gets to see of a frame. */
    function Relay(f: Frame): seq<byte> {
      if f.ty == READY then BuildFrame(READY, [ReadyValue(f.payload)])
      else if f.ty == CHAT then BuildFrame(CHAT, f.payload)
      else []
    }

    function RelayAll(fs: seq<Frame>): seq<byte> {
      if |fs| == 0 then [] else RelayAll(fs[..|fs| - 1]) + Relay(fs[|fs| - 1])
    }

    /** What was said in a room. */
    function Chats(fs: seq<Frame>): seq<seq<byte>> {
      if |fs| == 0 then []
      else Chats(fs[..|fs| - 1]) + if fs[|fs| - 1].ty == CHAT then [fs[|fs| - 1].payload] else []
    }

    /** Who reads what the other occupant's frames were turned into hears every chat line of it,
        in order, and the same readiness as the relay has noted. */
    lemma {:induction false} RelayTells(fs: seq<Frame>, before: bool)
      requires Sendable(fs)
      ensures var p := Parse(RelayAll(fs));
              p.ok && p.rest == [] && LastReady(p.frames, before) == LastReady(fs, before) &&
              Chats(p.frames) == Chats(fs)
    {
      if |fs| == 0 {
        assert Split([]) == Cut([], [], true);
      } else {
        var init, f := fs[..|fs| - 1], fs[|fs| - 1];
        RelayTells(init, before);
        ParseAppend(RelayAll(init), Relay(f));
        assert [] + Relay(f) == Relay(f);
        OneTold(Parse(RelayAll(init)).frames, f, before);
      }
    }

    lemma OneTold(seen: seq<Frame>, f: Frame, before: bool)
      requires |f.payload| <= MAX_PAYLOAD
      ensures var p := Parse(Relay(f));
              p.ok && p.rest == [] &&
              LastReady(seen + p.frames, before) ==
                (if f.ty == READY then SaysReady(f.payload) else LastReady(seen, before)) &&
              Chats(seen + p.frames) == Chats(seen) + if f.ty == CHAT then [f.payload] else []
    {
      assert Split([]) == Cut([], [], true);
      if f.ty == READY || f.ty == CHAT {
        var payload := if f.ty == READY then [ReadyValue(f.payload)] else f.payload;
        var g := Frame(f.ty, payload);
        OneFrame(f.ty, payload, []);
        assert BuildFrame(f.ty, payload) + [] == Relay(f) && [g] + [] == [g];
        assert (seen + [g])[..|seen|] == seen;
      } else {
        assert seen + [] == seen;
      }
    }

    /** p occupies the given slot of room r. */
    ghost predicate Occupies(s: Loop, p: nat, r: nat, host: bool) {
      Live(s, p) && s.conns[p].room == Some(r) && s.conns[p].isHost == host
    }

    /** If p is the other occupant, it still is, and its stream grew by exactly out. */
    ghost predicate Relayed(s: Loop, t: Loop, p: nat, r: nat, host: bool, out: seq<byte>) {
      Occupies(s, p, r, host) ==> Occupies(t, p, r, host) && Sent(s, t, Some(p), out)
    }

    lemma RelayedNothing(s: Loop, p: nat, r: nat, host: bool)
      ensures Relayed(s, s, p, r, host, [])
    {
      if Occupies(s, p, r, host) { SentNothing(s, Some(p)); }
    }

    lemma RelayedThen(s: Loop, t: Loop, u: Loop, p: nat, r: nat, host: bool, x: seq<byte>, y: seq<byte>)
      requires Relayed(s, t, p, r, host, x) && Relayed(t, u, p, r, host, y)
      ensures Relayed(s, u, p, r, host, x + y)
    {
      if Occupies(s, p, r, host) { Associates(Stream(s, p), x, y); }
    }

    /** The reading loop of on_room.  Unless a send fails, the other occupant gets exactly what
        it is to see of the frames. */
    method RoomLoop(c: nat, r: nat, isHost: bool, frames: seq<Frame>, ghost p: nat)
      returns (left: bool, ghost done: bool)
      requires Steady(Now()) && Housed(Now(), c) && r < |roomAt| && conns[c].room == Some(r)
      modifies this
      ensures Steady(Now()) && |conns| == old(|conns|) && |roomAt| == old(|roomAt|) && Goes(old(Now()), Now())
      ensures left == Leaves(frames)
      ensures if left then !Live(Now(), c) && Spares(old(Now()), Now(), old(Rooming(Now(), r)))
              else ReadIn(old(Now()), Now(), c, r, isHost, p, done, frames)
    {
      ghost var s := Now();
      done := true;
      StartReading(s, c, r, isHost, p);
      var i := 0;
      Prefixes(frames);
      while i < |frames|
        invariant i <= |frames| && RoomReading(s, c, r, isHost, p, done, frames[..i])
      {
        ghost var next := i + 1;
        left, done := RoomTurn(c, r, isHost, frames, i, next, p, s, done);
        if left { return; }
        i := i + 1;
      }
      left := false;
      AllRead(s, c, r, isHost, p, done, frames);
    }

    lemma Prefixes(fs: seq<Frame>)
      ensures fs[..0] == [] && fs[..|fs|] == fs
    {}

    lemma AllRead(s: Loop, c: nat, r: nat, isHost: bool, p: nat, done: bool, frames: seq<Frame>)
      requires RoomReading(s, c, r, isHost, p, done, frames)
      ensures Steady(Now()) && !Leaves(frames) && ReadIn(s, Now(), c, r, isHost, p, done, frames)
    {}

    lemma StartReading(s: Loop, c: nat, r: nat, isHost: bool, p: nat)
      requires s == Now() && Steady(s) && Housed(s, c) && r < |roomAt| && conns[c].room == Some(r)
      ensures RoomReading(s, c, r, isHost, p, true, [])
    {
      GoesSelf(s);
      RelayedNothing(s, p, r, !isHost);
      EvolvesRefl(s);
      TalliesNothing(s, s, c, p, r);
    }

    /** Since s, the frames seen have been read in room r. */
    ghost predicate RoomReading(s: Loop, c: nat, r: nat, isHost: bool, p: nat, done: bool, seen: seq<Frame>)
      reads this
    {
      Steady(Now()) && !Leaves(seen) && c < |s.conns| && s.conns[c].room == Some(r) &&
      ReadIn(s, Now(), c, r, isHost, p, done, seen)
    }

    method RoomTurn(c: nat, r: nat, isHost: bool, frames: seq<Frame>, i: nat, ghost next: nat, ghost p: nat,
                    ghost s: Loop, ghost before: bool)
      returns (left: bool, ghost done: bool)
      requires i < |frames| && next == i + 1 && RoomReading(s, c, r, isHost, p, before, frames[..i])
      modifies this
      ensures left ==> Leaves(frames)
      ensures if left
              then Steady(Now()) && |conns| == |s.conns| && |roomAt| == |s.roomAt| && Goes(s, Now()) &&
                   !Live(Now(), c) && Spares(s, Now(), Rooming(s, r))
              else RoomReading(s, c, r, isHost, p, done, frames[..next])
    {
      ghost var t := Now();
      done := false;
      UpTo(frames, i, next);
      left := frames[i].ty == ROOM_LEAVE;
      if left {
        Drop(c, {});
        SettledGoes(t, Now());
        LeftSpares(s, t, Now(), c, r);
        GoesTrans(s, t, Now());
      } else {
        ghost var sent := RoomFrame(c, r, isHost, frames[i], p);
        done := before && sent;
        ReadInTrans(s, t, Now(), c, r, isHost, p, before, frames[..i], sent, [frames[i]], frames[..next]);
      }
    }

    /** It leaves, and whoever is still in its room may be closed over the news. */
    lemma LeftSpares(s: Loop, t: Loop, u: Loop, c: nat, r: nat)
      requires Passing(s, t, r) && Links(t) && SameHouse(s, t) && Housed(t, c)
      requires c < |s.conns| && s.conns[c].room == Some(r) && Spares(t, u, Circle(t, c))
      ensures Spares(s, u, Rooming(s, r))
    {
      if Live(t, c) { RoomCircle(t, c, r); }
      SparesTrans(s, t, u, Rooming(s, r), Circle(t, c));
    }

    lemma UpTo(fs: seq<Frame>, i: nat, next: nat)
      requires next == i + 1 && next <= |fs|
      ensures RelayAll(fs[..next]) == RelayAll(fs[..i]) + RelayAll([fs[i]])
      ensures Leaves(fs[..next]) <==> Leaves(fs[..i]) || fs[i].ty == ROOM_LEAVE
      ensures fs[i].ty == ROOM_LEAVE ==> Leaves(fs)
      ensures fs[..next] == fs[..i] + [fs[i]]
    {
      assert fs[..next] == fs[..i] + [fs[i]];
      RelayLast(fs[..i], fs[i], fs[..next]);
      RelayOne(fs[i]);
      LeavesLast(fs[..i], fs[i], fs[..next]);
    }

    lemma RelayOne(f: Frame)
      ensures RelayAll([f]) == Relay(f)
    {
      assert [f][..0] == [] && [] + Relay(f) == Relay(f);
    }

    lemma RelayLast(fs: seq<Frame>, f: Frame, all: seq<Frame>)
      requires all == fs + [f]
      ensures RelayAll(all) == RelayAll(fs) + Relay(f)
    {
      assert all[..|all| - 1] == fs;
    }

    lemma LeavesLast(fs: seq<Frame>, f: Frame, all: seq<Frame>)
      requires all == fs + [f]
      ensures Leaves(all) <==> Leaves(fs) || f.ty == ROOM_LEAVE
    {
      if f.ty == ROOM_LEAVE { assert all[|fs|].ty == ROOM_LEAVE; }
      if i :| 0 <= i < |fs| && fs[i].ty == ROOM_LEAVE { assert all[i].ty == ROOM_LEAVE; }
    }

    /** One frame of the room: a READY is noted and passed on, a CHAT is passed on. */
    method RoomFrame(c: nat, r: nat, isHost: bool, f: Frame, ghost p: nat) returns (ghost done: bool)
      requires Steady(Now()) && Housed(Now(), c) && r < |roomAt|
      modifies this
      ensures Steady(Now()) && ReadIn(old(Now()), Now(), c, r, isHost, p, done, [f])
    {
      ghost var s := Now();
      done := true;
      NoteFrame(c, f, p, r, !isHost);
      ghost var t := Now();
      RelayOne(f);
      if f.ty == READY || f.ty == CHAT {
        RelayIsWhole(f);
        done := PassOn(r, isHost, Relay(f), s, p, c);
        FramePassed(s, t, Now(), c, f, r, isHost, p, done);
      }
    }

    lemma FramePassed(s: Loop, t: Loop, u: Loop, c: nat, f: Frame, r: nat, isHost: bool, p: nat, done: bool)
      requires Noted(s, t, c, f, p, r, !isHost) && Evolves(t, u) && Goes(t, u) && Passing(t, u, r)
      requires |u.roomAt| == |s.roomAt| && (done ==> Relayed(s, u, p, r, !isHost, Relay(f)))
      requires (done || t.refused < u.refused) && s.refused <= t.refused && Tallies(t, u, c, p, r, [])
      ensures ReadIn(s, u, c, r, isHost, p, done, [f])
    {
      RelayOne(f);
      GoesTrans(s, t, u);
      PassingTrans(s, t, u, r);
      HousedEvolves(t, u, c);
      TalliesTrans(s, t, u, c, p, r, [f], [], [f]);
    }

    lemma RelayIsWhole(f: Frame)
      ensures WholeFrames(Relay(f))
    {
      BuiltIsWhole(READY, [ReadyValue(f.payload)]);
      BuiltIsWhole(CHAT, f.payload);
      assert Split([]) == Cut([], [], true);
    }

    /** c after a frame of its room: a READY says how ready it is. */
    function FrameNoted(c: Conn, f: Frame): Conn {
      c.(ready := if f.ty == READY then ReadyValue(f.payload) == 1 else c.ready, heard := c.heard + [f])
    }

    method NoteFrame(c: nat, f: Frame, ghost p: nat, ghost r: nat, ghost host: bool)
      requires Steady(Now()) && Housed(Now(), c) && r < |roomAt|
      modifies this`conns
      ensures Steady(Now()) && Noted(old(Now()), Now(), c, f, p, r, host)
    {
      ghost var s := Now();
      NotedSteady(s, c, f, FrameNoted(conns[c], f));
      NotedRelayed(s, c, f, FrameNoted(conns[c], f), p, r, host);
      SetNoted(c, f);
    }

    /** A frame is noted and nothing else happens. */
    ghost predicate Noted(s: Loop, t: Loop, c: nat, f: Frame, p: nat, r: nat, host: bool) {
      |t.conns| == |s.conns| && |t.roomAt| == |s.roomAt| && Housed(t, c) && Relayed(s, t, p, r, host, []) &&
      Goes(s, t) && Passing(s, t, r) && Tallies(s, t, c, p, r, [f])
    }

    method SetNoted(c: nat, f: Frame)
      requires c < |conns|
      modifies this`conns
      ensures Now() == Revised(old(Now()), c, FrameNoted(old(conns[c]), f), 0)
    {
      if f.ty == READY { SetReady(c, ReadyValue(f.payload) == 1); }
      conns := conns[c := conns[c].(heard := conns[c].heard + [f])];
    }

    method SetReady(c: nat, v: bool)
      requires c < |conns|
      modifies this`conns
      ensures Now() == Revised(old(Now()), c, old(conns[c]).(ready := v), 0)
    {
      conns := conns[c := conns[c].(ready := v)];
    }

    lemma NotedSteady(s: Loop, c: nat, f: Frame, d: Conn)
      requires Steady(s) && Housed(s, c) && d == FrameNoted(s.conns[c], f)
      ensures Steady(Revised(s, c, d, 0))
    {
      assert StageOk(s, c);
      assert d.heard[..|d.heard| - 1] == s.conns[c].heard;
      RewrittenWorking(s, c, d, {});
    }

    lemma NotedRelayed(s: Loop, c: nat, f: Frame, d: Conn, p: nat, r: nat, host: bool)
      requires Links(s) && Housed(s, c) && d == FrameNoted(s.conns[c], f) && r < |s.roomAt|
      ensures Noted(s, Revised(s, c, d, 0), c, f, p, r, host)
    {
      var t := Revised(s, c, d, 0);
      OccupantGoes(s, c, d);
      NotedPasses(s, c, d, p, r, host);
      NotedTallies(s, c, f, d, p, r);
    }

    lemma NotedPasses(s: Loop, c: nat, d: Conn, p: nat, r: nat, host: bool)
      requires c < |s.conns| && d == s.conns[c].(ready := d.ready, heard := d.heard) && r < |s.roomAt|
      ensures var t := Revised(s, c, d, 0);
              Passing(s, t, r) && Relayed(s, t, p, r, host, [])
    {
      var t := Revised(s, c, d, 0);
      assert LiveSet(t.conns) == LiveSet(s.conns);
      SameLiveSpares(s, t, Rooming(s, r));
      if p < |s.conns| { assert Stream(s, p) + [] == Stream(s, p); }
    }

    lemma NotedTallies(s: Loop, c: nat, f: Frame, d: Conn, p: nat, r: nat)
      requires c < |s.conns| && d == FrameNoted(s.conns[c], f) && r < |s.roomAt|
      ensures Tallies(s, Revised(s, c, d, 0), c, p, r, [f])
    {
      assert [f][..0] == [];
      if p < |s.conns| { assert s.conns[p].heard + [] == s.conns[p].heard; }
    }

    /** A frame for the other occupant, if there is one. */
    method PassOn(r: nat, isHost: bool, data: seq<byte>, ghost s: Loop, ghost p: nat, ghost c: nat)
      returns (ghost done: bool)
      requires Steady(Now()) && r < |roomAt| && WholeFrames(data) && Relayed(s, Now(), p, r, !isHost, [])
      requires c < |conns|
      modifies this
      ensures Steady(Now()) && |conns| == old(|conns|) && |roomAt| == old(|roomAt|)
      ensures Evolves(old(Now()), Now()) && Goes(old(Now()), Now()) && Passing(old(Now()), Now(), r)
      ensures done ==> Relayed(s, Now(), p, r, !isHost, data)
      ensures (done || old(refused) < refused) && Tallies(old(Now()), Now(), c, p, r, [])
    {
      ghost var t := Now();
      EvolvesRefl(t);
      GoesSelf(t);
      TalliesNothing(t, t, c, p, r);
      var peer := Slot(roomAt[r], !isHost);
      PeerIs(t, p, r, !isHost);
      if peer.None? { return true; }
      SlotIsHoused(t, r, !isHost);
      PlacedIsTellable(t, peer.value, {});
      var ok := Say(peer, data, {});
      InformedGoes(t, Now(), peer);
      PassingSaid(t, Now(), r, !isHost);
      if ok { PassedOn(s, t, Now(), p, r, !isHost, data); }
      TalliesNothing(t, Now(), c, p, r);
      done := ok;
    }

    lemma PassedOn(s: Loop, t: Loop, u: Loop, p: nat, r: nat, host: bool, data: seq<byte>)
      requires Relayed(s, t, p, r, host, [])
      requires Evolves(t, u) && Links(t) && r < |t.roomAt| && Slot(t.roomAt[r], host).Some?
      requires Delivered(t, u, Slot(t.roomAt[r], host).value, data)
      ensures Relayed(s, u, p, r, host, data)
    {
      StillOccupies(t, u, p, r, host, data);
      RelayedThen(s, t, u, p, r, host, [], data);
      assert [] + data == data;
    }

    lemma PeerIs(s: Loop, p: nat, r: nat, host: bool)
      requires Links(s) && r < |s.roomAt|
      ensures Occupies(s, p, r, host) ==> Slot(s.roomAt[r], host) == Some(p)
    {
      if Occupies(s, p, r, host) { assert ConnLinked(s, p); }
    }

    lemma StillOccupies(s: Loop, t: Loop, p: nat, r: nat, host: bool, data: seq<byte>)
      requires Evolves(s, t) && Links(s) && r < |s.roomAt| && Slot(s.roomAt[r], host).Some?
      requires Delivered(s, t, Slot(s.roomAt[r], host).value, data)
      ensures Relayed(s, t, p, r, host, data)
    {
      PeerIs(s, p, r, host);
      if Occupies(s, p, r, host) {
        SameLive(s, t, p);
        EvolvesConn(s, t, p);
      }
    }

    /** Both slots taken and both players ready: the match starts. */
    method StartIfRoomReady(r: nat)
      requires Steady(Now()) && r < |roomAt|
      modifies this
      ensures Steady(Now()) && |conns| == old(|conns|) && Goes(old(Now()), Now())
      ensures OnFailure(old(Now()), Now(), old(Rooming(Now(), r)))
      ensures RoomStarted(old(Now()), Now(), r)
    {
      var host, guest := roomAt[r].host, roomAt[r].guest;
      if host.Some? && guest.Some? && ReadyAt(host.value) && ReadyAt(guest.value) {
        StartRoomMatch(r, host.value, guest.value);
      } else {
        GoesSelf(Now());
      }
    }

    /** Two ready occupants of room r forward or are closed; otherwise nothing has changed. */
    ghost predicate RoomStarted(s: Loop, t: Loop, r: nat)
      requires r < |s.roomAt|
    {
      if BothWilling(s, r) then Forwards(t, s.roomAt[r].host.value) && Forwards(t, s.roomAt[r].guest.value)
      else t == s
    }

    predicate ReadyAt(i: nat)
      reads this
    {
      i < |conns| && conns[i].ready
    }

    /** start_room_match: the room makes way for a channel and, once both are told, their
        bytes are forwarded at once. */
    method StartRoomMatch(r: nat, host: nat, guest: nat)
      requires Steady(Now()) && r < |roomAt| && roomAt[r].host == Some(host) && roomAt[r].guest == Some(guest)
      requires ReadyAt(host) && ReadyAt(guest)
      modifies this
      ensures Steady(Now()) && |conns| == old(|conns|) && Forwards(Now(), host) && Forwards(Now(), guest)
      ensures Goes(old(Now()), Now()) && OnFailure(old(Now()), Now(), old(Rooming(Now(), r)))
    {
      ghost var s := Now();
      assert Rooming(s, r) == {host, guest};
      var ok, k := OpenMatch(r, host, guest);
      ghost var t := Now();
      if ok {
        ForwardMatch(k, host, guest);
        GoesTrans(s, t, Now());
        OnFailureTrans(s, t, Now(), {host, guest}, {host, guest});
      }
    }

    method ForwardMatch(k: nat, host: nat, guest: nat)
      requires Working(Now(), {host, guest}) && CanForward(Now(), k) && ChanOpen(Now(), k)
      requires {chanAt[k].a.value, chanAt[k].b.value} == {host, guest} && FromRoom(Now(), host) &&
               FromRoom(Now(), guest)
      modifies this
      ensures Steady(Now()) && |conns| == old(|conns|) && Forwards(Now(), host) && Forwards(Now(), guest)
      ensures Goes(old(Now()), Now()) && OnFailure(old(Now()), Now(), {host, guest})
    {
      ghost var s, a, b := Now(), chanAt[k].a.value, chanAt[k].b.value;
      assert a in {host, guest} && b in {host, guest};
      BeginForwarding(k, {host, guest});
      BothForward(Now(), a, b, host, guest);
      StartedFollows(s, Now(), a, b);
    }

    /** Just out of a room, where nobody who wants the queue is. */
    ghost predicate FromRoom(s: Loop, i: nat) {
      Live(s, i) && s.conns[i].stage == InRoom && s.conns[i].intent != ToQueue && Means(s, i)
    }

    lemma BothForward(s: Loop, a: nat, b: nat, host: nat, guest: nat)
      requires {a, b} == {host, guest} && Forwards(s, a) && Forwards(s, b)
      ensures Forwards(s, host) && Forwards(s, guest)
    {
      assert host in {a, b} && guest in {a, b};
    }

    /** Host and guest are out of the room, on the two sides of a new match, and told, the
        host as player 1; or both are closed. */
    method OpenMatch(r: nat, host: nat, guest: nat) returns (ok: bool, k: nat)
      requires Steady(Now()) && r < |roomAt| && roomAt[r].host == Some(host) && roomAt[r].guest == Some(guest)
      requires ReadyAt(host) && ReadyAt(guest)
      modifies this
      ensures |conns| == old(|conns|) && host < |conns| && guest < |conns|
      ensures ok ==> Working(Now(), {host, guest}) && CanForward(Now(), k) && ChanOpen(Now(), k) &&
                     {chanAt[k].a.value, chanAt[k].b.value} == {host, guest} &&
                     Introduced(old(Now()), Now(), host, guest) &&
                     FromRoom(Now(), host) && FromRoom(Now(), guest)
      ensures !ok ==> Steady(Now()) && !Live(Now(), host) && !Live(Now(), guest)
      ensures Goes(old(Now()), Now()) && OnFailure(old(Now()), Now(), {host, guest})
    {
      ghost var s := Now();
      RoomPlayers(s, r, host, guest);
      k := LeaveRoom(r, host, guest);
      ghost var t := Now();
      ok := Present(k, host, guest, s);
      GoesTrans(s, t, Now());
      OnFailureTrans(s, t, Now(), {host, guest}, {host, guest});
    }

    method Present(k: nat, host: nat, guest: nat, ghost s: Loop) returns (ok: bool)
      requires Working(Now(), {host, guest}) && host != guest && Sent(s, Now(), None, [])
      requires Movable(Now(), host, k) && Movable(Now(), guest, k) && FromRoom(Now(), host) && FromRoom(Now(), guest)
      requires Opponent(Now(), host) == Some(guest) && Opponent(Now(), guest) == Some(host)
      modifies this
      ensures |conns| == old(|conns|)
      ensures ok ==> Working(Now(), {host, guest}) && CanForward(Now(), k) && ChanOpen(Now(), k) &&
                     {chanAt[k].a.value, chanAt[k].b.value} == {host, guest} && Introduced(s, Now(), host, guest) &&
                     FromRoom(Now(), host) && FromRoom(Now(), guest)
      ensures !ok ==> Steady(Now()) && !Live(Now(), host) && !Live(Now(), guest)
      ensures Goes(old(Now()), Now()) && OnFailure(old(Now()), Now(), {host, guest})
    {
      ghost var t := Now();
      var m, noticeA, noticeB := Announce();
      OpponentsIntroducible(t, host, guest, {host, guest});
      ok := Introduce(host, guest, noticeA, noticeB, {host, guest});
      assert {host, guest} - {host} - {guest} == {};
      RoomToldGoes(t, Now(), host, guest);
      if ok {
        StillMovable(t, Now(), k, host, guest);
        ToldSince(s, t, Now(), host, guest, m);
        EvolvesConn(t, Now(), host);
        EvolvesConn(t, Now(), guest);
      }
    }

    lemma RoomToldGoes(t: Loop, u: Loop, a: nat, b: nat)
      requires Links(t) && Links(u) && Evolves(t, u) && Quiet(t, u, {a, b}) && FromRoom(t, a) && FromRoom(t, b)
      requires Opponent(t, a) == Some(b) && Opponent(t, b) == Some(a)
      ensures Goes(t, u)
    {
      RoomToldFollows(t, u, a, b);
      EvolvesCalm(t, u);
      CalmHouse(t, u);
    }

    method LeaveRoom(r: nat, host: nat, guest: nat) returns (k: nat)
      requires Steady(Now()) && r < |roomAt| && roomAt[r].host == Some(host) && roomAt[r].guest == Some(guest)
      requires ReadyAt(host) && ReadyAt(guest)
      modifies this
      ensures Working(Now(), {host, guest}) && |conns| == old(|conns|) && k < |chanAt| && host != guest
      ensures Movable(Now(), host, k) && Movable(Now(), guest, k) && FromRoom(Now(), host) && FromRoom(Now(), guest)
      ensures Opponent(Now(), host) == Some(guest) && Opponent(Now(), guest) == Some(host)
      ensures Sent(old(Now()), Now(), None, []) && Goes(old(Now()), Now())
      ensures OnFailure(old(Now()), Now(), {host, guest})
    {
      ghost var s := Now();
      RoomPlayers(s, r, host, guest);
      PlayersLeave(s, r, host, guest, Ranked(host, guest));
      MatchedStreams(s, host, guest, Some(r), Ranked(host, guest));
      RoomMatched(s, r, host, guest, Ranked(host, guest));
      SameLiveSpares(s, Matched(s, host, guest, Some(r), Ranked(host, guest)), {host, guest});
      k := MakeChannel(host, guest, Some(r));
    }

    lemma PlayersLeave(s: Loop, r: nat, host: nat, guest: nat, ranked: bool)
      requires Steady(s) && r < |s.roomAt| && Live(s, host) && Live(s, guest)
      requires s.roomAt[r].host == Some(host) && s.roomAt[r].guest == Some(guest)
      requires s.conns[host].ready && s.conns[guest].ready
      ensures var t := Matched(s, host, guest, Some(r), ranked);
              FromRoom(t, host) && FromRoom(t, guest) && Goes(s, t) &&
              Opponent(t, host) == Some(guest) && Opponent(t, guest) == Some(host)
    {
      assert SlotLinked(s, r, true) && SlotLinked(s, r, false);
      assert StageOk(s, host) && StageOk(s, guest);
      MatchedFollows(s, host, guest, Some(r), ranked);
      MatchedHouse(s, host, guest, Some(r), ranked);
      MatchedPlayers(s, host, guest, Some(r), ranked);
    }

    lemma MatchedStreams(s: Loop, a: nat, b: nat, room: Option<nat>, ranked: bool)
      requires a < |s.conns| && b < |s.conns| && (room.Some? ==> room.value < |s.roomAt|)
      ensures Sent(s, Matched(s, a, b, room, ranked), None, [])
    {
      SameStreams(s, Matched(s, a, b, room, ranked), None);
    }

    lemma RoomPlayers(s: Loop, r: nat, host: nat, guest: nat)
      requires Links(s) && r < |s.roomAt| && s.roomAt[r].host == Some(host) && s.roomAt[r].guest == Some(guest)
      ensures Live(s, host) && Live(s, guest)
    {
      SlotIsLive(s, r, true);
      SlotIsLive(s, r, false);
    }

    lemma RoomMatched(s: Loop, r: nat, host: nat, guest: nat, ranked: bool)
      requires Steady(s) && r < |s.roomAt| && Live(s, host) && Live(s, guest)
      requires s.roomAt[r].host == Some(host) && s.roomAt[r].guest == Some(guest)
      ensures var t := Matched(s, host, guest, Some(r), ranked);
              Working(t, {host, guest}) && host != guest &&
              Movable(t, host, |s.chanAt|) && Movable(t, guest, |s.chanAt|)
    {
      var t := Matched(s, host, guest, Some(r), ranked);
      RoomMatchable(s, r, host, guest);
      RoomWorking(s, r, host, guest, ranked);
      assert StageOk(s, host) && StageOk(s, guest);
      BothMovable(s, host, guest, r, ranked);
    }

    lemma RoomWorking(s: Loop, r: nat, host: nat, guest: nat, ranked: bool)
      requires Steady(s) && Matchable(s, host, guest, Some(r))
      ensures Working(Matched(s, host, guest, Some(r), ranked), {host, guest})
    {
      MatchedKeeps(s, host, guest, Some(r), ranked);
      MatchedStages(s, host, guest, Some(r), ranked, {});
      assert {} + {host, guest} == {host, guest};
    }

    lemma BothMovable(s: Loop, a: nat, b: nat, r: nat, ranked: bool)
      requires Live(s, a) && Live(s, b) && a != b && r < |s.roomAt|
      requires s.conns[a].stage == InRoom && Known(s.conns[a]) && !s.conns[a].handshake
      requires s.conns[b].stage == InRoom && Known(s.conns[b]) && !s.conns[b].handshake
      ensures Movable(Matched(s, a, b, Some(r), ranked), a, |s.chanAt|)
      ensures Movable(Matched(s, a, b, Some(r), ranked), b, |s.chanAt|)
    {}

    lemma RoomMatchable(s: Loop, r: nat, host: nat, guest: nat)
      requires Links(s) && r < |s.roomAt| && Live(s, host) && Live(s, guest)
      requires s.roomAt[r].host == Some(host) && s.roomAt[r].guest == Some(guest)
      ensures Matchable(s, host, guest, Some(r))
      ensures s.conns[host].room == Some(r) && s.conns[guest].room == Some(r)
    {
      assert SlotLinked(s, r, true) && SlotLinked(s, r, false);
      assert ConnLinked(s, host) && ConnLinked(s, guest);
    }

    lemma MovableStill(s: Loop, t: Loop, k: nat, a: nat)
      requires Evolves(s, t) && Links(t) && Movable(s, a, k) && Live(t, a)
      ensures Movable(t, a, k) && ChanOpen(t, k) && Side(t.chanAt[k], t.conns[a].isA) == Some(a)
    {
      EvolvesConn(s, t, a);
      assert ConnLinked(t, a);
    }

    lemma StillMovable(s: Loop, t: Loop, k: nat, a: nat, b: nat)
      requires Evolves(s, t) && Links(t) && Movable(s, a, k) && Movable(s, b, k) && Live(t, a) && Live(t, b) && a != b
      ensures CanForward(t, k) && ChanOpen(t, k)
      ensures {t.chanAt[k].a.value, t.chanAt[k].b.value} == {a, b}
    {
      MovableStill(s, t, k, a);
      MovableStill(s, t, k, b);
    }

    // ---------------------------------------------------------------- events: bytes arrive

    /** on_readable: the connection closed (no chunk), or a chunk of any size.  Sending too
        fast, or more than the buffer may hold, ends the connection; otherwise the stage it is
        in says who reads the buffer. */
    method OnReadable(c: nat, chunk: Option<seq<byte>>, tooFast: bool)
      requires Steady(Now()) && Live(Now(), c)
      modifies this
      ensures Steady(Now()) && |conns| == old(|conns|)
      ensures chunk.None? ==> !Live(Now(), c) && Follows(old(Now()), Now())
      ensures chunk.Some? && |chunk.value| != 0 && (tooFast || old(|conns[c].rx|) + |chunk.value| > RX_CAP) ==>
                !Live(Now(), c)
      ensures chunk.Some? && |chunk.value| != 0 && Dooms(old(conns[c]), old(conns[c].rx) + chunk.value) ==>
              !Live(Now(), c)
      ensures old(conns[c].stage) != FirstFrame ==>
                Judged(old(Now()), Now(), c, Offends(old(conns[c]), chunk, tooFast))
      ensures chunk.Some? ==> Reads(old(Now()), Now(), c, P.Step(View(old(Now()), c), P.Read(chunk.value)))
    {
      ghost var s := Now();
      FollowsSelf(s);
      if chunk.None? {
        Drop(c, {});
        SettledFollows(s, Now());
      } else if |chunk.value| != 0 {
        if tooFast || |conns[c].rx| + |chunk.value| > RX_CAP {
          Overflow(c, chunk.value);
        } else {
          Swallow(c, chunk.value);
        }
      }
    }

    /** The peer has closed, sends too fast, fills the buffer, or sends what its stage does not
        put up with. */
    ghost predicate Offends(d: Conn, chunk: Option<seq<byte>>, tooFast: bool) {
      chunk.None? ||
      (|chunk.value| != 0 && (tooFast || |d.rx| + |chunk.value| > RX_CAP || Dooms(d, d.rx + chunk.value)))
    }

    /** The chunk is taken in and read. */
    method Swallow(c: nat, chunk: seq<byte>)
      requires Steady(Now()) && Live(Now(), c) && chunk != [] && |conns[c].rx| + |chunk| <= RX_CAP
      modifies this
      ensures Steady(Now()) && |conns| == old(|conns|)
      ensures Dooms(old(conns[c]), old(conns[c].rx) + chunk) ==> !Live(Now(), c)
      ensures old(conns[c].stage) != FirstFrame ==>
                Judged(old(Now()), Now(), c, Dooms(old(conns[c]), old(conns[c].rx) + chunk))
      ensures Reads(old(Now()), Now(), c, P.Step(View(old(Now()), c), P.Read(chunk)))
    {
      ghost var s, d := Now(), Fed(conns[c], chunk);
      DoomedAlike(conns[c], d, d.rx);
      Absorb(c, chunk);
      ghost var t := Now();
      Dispatch(c);
      FedReads(s, t, Now(), c, chunk, d);
      FedJudged(s, t, Now(), c, d, Dooms(d, d.rx));
    }

    lemma FedJudged(s: Loop, t: Loop, u: Loop, c: nat, d: Conn, doomed: bool)
      requires Live(s, c) && SameLinks(s.conns[c], d) && t == Revised(s, c, d, 0)
      ensures Judged(t, u, c, doomed) ==> Judged(s, u, c, doomed)
    {
      assert Circle(t, c) == Circle(s, c);
    }

    lemma DoomedAlike(d: Conn, e: Conn, rx: seq<byte>)
      requires e == d.(rx := e.rx, got := e.got)
      ensures Dooms(d, rx) == Dooms(e, rx)
    {}

    method Absorb(c: nat, chunk: seq<byte>)
      requires Steady(Now()) && Live(Now(), c) && |conns[c].rx| + |chunk| <= RX_CAP
      modifies this
      ensures Steady(Now()) && Now() == Revised(old(Now()), c, Fed(old(conns[c]), chunk), 0)
    {
      RewrittenWorking(Now(), c, Fed(conns[c], chunk), {});
      Feed(c, chunk);
    }

    method Feed(c: nat, chunk: seq<byte>)
      requires c < |conns|
      modifies this`conns
      ensures Now() == Revised(old(Now()), c, Fed(old(conns[c]), chunk), 0)
    {
      conns := conns[c := Fed(conns[c], chunk)];
    }

    /** The chunk is taken in and the connection closed. */
    method Overflow(c: nat, chunk: seq<byte>)
      requires Steady(Now()) && Live(Now(), c)
      modifies this
      ensures Steady(Now()) && |conns| == old(|conns|) && !Live(Now(), c)
      ensures Spares(old(Now()), Now(), Circle(old(Now()), c))
      ensures forall l :: Reads(old(Now()), Now(), c, l)
    {
      ghost var s, d := Now(), Fed(conns[c], chunk);
      GrownBut(s, c, d);
      RewrittenStages(s, c, d, 0, {});
      RewrittenOthers(s, c, d);
      Feed(c, chunk);
      ghost var t := Now();
      DropFull(c);
      OverflownReads(s, t, Now(), c);
      RejectedSpares(s, d, 0, Now(), c);
    }

    lemma OverflownReads(s: Loop, t: Loop, u: Loop, c: nat)
      requires (forall i: nat :: i != c ==> View(t, i) == View(s, i)) && Links(t) && Links(u)
      requires Settles(t, u) && !Live(u, c)
      ensures forall l :: Reads(s, u, c, l)
    {
      EvolvesDrifts(t, u);
      SettlesFollows(t, u);
    }

    method DropFull(c: nat)
      requires InvBut(Now(), c) && Live(Now(), c) && Stages(Now(), {})
      requires closing == {} && tearing == {} && |queue| <= 1
      modifies this
      ensures Steady(Now()) && |conns| == old(|conns|) && !Live(Now(), c) && Settles(old(Now()), Now())
      ensures Spares(old(Now()), Now(), Circle(old(Now()), c))
    {
      ghost var s := Now();
      CloseConn(c);
      ClosedSteady(s, Now());
    }

    lemma ClosedSteady(s: Loop, t: Loop)
      requires Stages(s, {}) && s.closing == {} && s.tearing == {} && |s.queue| <= 1
      requires Inv(t) && Settles(s, t) && t.closing == s.closing && t.tearing == s.tearing
      ensures Steady(t)
    {
      SettlesStages(s, t, {});
    }

    method Fill(c: nat, rx: seq<byte>)
      requires c < |conns|
      modifies this`conns
      ensures Now() == Revised(old(Now()), c, old(conns[c]).(rx := rx), 0)
    {
      conns := conns[c := conns[c].(rx := rx)];
    }

    /** Bytes that end a connection: what its stage's reader does not put up with. */
    ghost predicate Dooms(d: Conn, rx: seq<byte>) {
      match d.stage
      case FirstFrame => ReadFirst(rx) in {Violation, Cancelled}
      case Queued => !StaysQueued(rx)
      case InRoom => d.room.Some? && Departs(rx)
      case InLobby => d.ch.Some? && Refuses(d.ready, rx)
      case _ => false
    }

    /** Nothing that a client on its way to a match sends, if it behaves, dooms it. */
    lemma NeverDoomed(s: Loop, a: nat, c: P.Client, chunk: seq<byte>)
      requires Traced(s) && OnPath(s, a) && c.Valid() && chunk != [] && s.conns[a].got + chunk <= c.Stream()
      ensures !Dooms(s.conns[a], s.conns[a].rx + chunk)
    {
      P.ReadsOn(c, View(s, a), chunk);
    }

    /** At most c and its partner were closed, and nobody at all unless c was doomed or a send
        failed. */
    ghost predicate Judged(s: Loop, t: Loop, c: nat, doomed: bool) {
      Spares(s, t, Circle(s, c)) && (!doomed ==> OnFailure(s, t, Circle(s, c)))
    }

    /** The opponent got exactly the filtered bytes, or somebody was closed over it. */
    ghost predicate PassedOrDropped(s: Loop, t: Loop, c: nat) {
      c < |s.conns| && s.conns[c].ch.Some? && s.conns[c].ch.value < |s.chanAt| &&
      var ch, rx := s.chanAt[s.conns[c].ch.value], s.conns[c].rx;
      var peer := Side(ch, !s.conns[c].isA);
      (Live(t, c) && t.conns[c].rx == Left(rx) && Sent(s, t, peer, Out(ch.ranked, rx))) ||
      !Live(t, if peer.Some? then peer.value else c)
    }

    method Dispatch(c: nat)
      requires Steady(Now()) && Live(Now(), c)
      modifies this
      ensures Steady(Now()) && |conns| == old(|conns|)
      ensures Dooms(old(conns[c]), old(conns[c].rx)) ==> !Live(Now(), c)
      ensures old(conns[c].stage) != FirstFrame ==> Judged(old(Now()), Now(), c, Dooms(old(conns[c]), old(conns[c].rx)))
      ensures old(conns[c].stage) == Queued && StaysQueued(old(conns[c].rx)) ==> Now() == old(Now())
      ensures old(conns[c].stage) == Auth ==> Now() == old(Now())
      ensures old(conns[c].stage) == Forwarding ==> PassedOrDropped(old(Now()), Now(), c)
      ensures Reads(old(Now()), Now(), c, P.OnRead(View(old(Now()), c)))
    {
      ghost var s := Now();
      assert StageOk(s, c) && ConnLinked(s, c);
      match conns[c].stage
      case FirstFrame =>
        FirstLink(s, c);
        OnFirstFrame(c);
      case InRoom =>
        ghost var _, _ := OnRoom(c);
        RoomReads(s, Now(), c);
      case InLobby => OnLobby(c);
      case Forwarding =>
        ForwardLink(s, c);
        ghost var _ := OnForward(c);
        MovesReads(s, Now(), c, P.OnForward(View(s, c)));
      case Queued => WatchQueue(c);
      case Auth => IdleReads(s, c);
    }

    /** on_queued as an event. */
    method WatchQueue(c: nat)
      requires Steady(Now()) && Live(Now(), c) && conns[c].stage == Queued
      modifies this
      ensures Steady(Now()) && |conns| == old(|conns|)
      ensures if StaysQueued(old(conns[c].rx)) then Now() == old(Now())
              else !Live(Now(), c) && Spares(old(Now()), Now(), Circle(old(Now()), c))
      ensures Reads(old(Now()), Now(), c, P.OnRead(View(old(Now()), c)))
    {
      ghost var s := Now();
      var stays := OnQueued(c, {});
      assert {} - {c} == {};
      if stays {
        IdleReads(s, c);
      } else {
        SettledFollows(s, Now());
        DoneReads(s, Now(), c, P.OnRead(View(s, c)));
      }
    }

    // ---------------------------------------------------------------- events: a save returns

    /** on_result_saved: the result of match k is in; a survivor that was kept for it is
        closed now. */
    method OnResultSaved(k: nat)
      requires Steady(Now()) && k < |chanAt|
      modifies this
      ensures Steady(Now()) && |conns| == old(|conns|) && k < |chanAt| && Follows(old(Now()), Now())
      ensures k in old(chans) && old(chanAt[k].survivorPending) ==> chanAt[k].a.None? && chanAt[k].b.None?
      ensures k in old(chans) && !old(chanAt[k].survivorPending) ==> Now() == Saved(old(Now()), k)
      ensures Spares(old(Now()), Now(), old(Sides(Now(), k)))
    {
      ghost var s := Now();
      FollowsSelf(s);
      if k !in chans { return; }
      assert ChanSound(s, k);
      var pending := chanAt[k].survivorPending;
      SavedFollows(s, k);
      MarkSaved(k);
      if pending {
        CloseSaved(s, k);
      } else {
        SavedSteady(s, k);
      }
    }

    method CloseSaved(ghost s: Loop, k: nat)
      requires Steady(s) && k < |s.chanAt| && s.chanAt[k].survivorPending && Now() == Saved(s, k)
      modifies this
      ensures Steady(Now()) && |conns| == old(|conns|) && k < |chanAt|
      ensures chanAt[k].a.None? && chanAt[k].b.None? && Follows(s, Now()) && Spares(s, Now(), Sides(s, k))
    {
      SavedPending(s, k);
      SavedFollows(s, k);
      ghost var t := Now();
      CloseChannelSurvivor(k);
      ghost var u := Now();
      SavedDone(s, t, u, k);
      SettledFollows(t, u);
      FollowsTrans(s, t, u);
      Mended();
      SameConnsFollows(u, Now());
      FollowsTrans(s, u, Now());
    }

    lemma SavedFollows(s: Loop, k: nat)
      requires k < |s.chanAt|
      ensures Follows(s, Saved(s, k))
    {
      var t := Saved(s, k);
      forall i: nat
        ensures P.Reaches(View(s, i), View(t, i))
      {
        SameSidesView(s, t, i);
        P.ReachesSelf(View(s, i));
      }
    }

    /** The channel is no longer being taken apart. */
    method Mended()
      modifies this`tearing
      ensures Now() == old(Now()).(tearing := {})
    {
      tearing := {};
    }

    method MarkSaved(k: nat)
      requires k < |chanAt|
      modifies this`chanAt, this`tearing
      ensures Now() == Saved(old(Now()), k)
    {
      tearing := if chanAt[k].survivorPending then tearing + {k} else tearing;
      chanAt := chanAt[k := chanAt[k].(inflight := false, survivorPending := false)];
    }

    lemma SavedInv(s: Loop, k: nat)
      requires Steady(s) && k < |s.chanAt|
      ensures Inv(Saved(s, k)) && Stages(Saved(s, k), {})
    {
      var t := Saved(s, k);
      assert InvVacant(t) by { SavedKeeps(s, k); }
      RoomsUntouched(s, k, t.chanAt[k], s.posts, t.tearing);
      ChanRevisedStages(s, k, t.chanAt[k], s.posts, t.tearing);
    }

    lemma SavedPending(s: Loop, k: nat)
      requires Steady(s) && k < |s.chanAt| && s.chanAt[k].survivorPending
      ensures Inv(Saved(s, k)) && (s.chanAt[k].a.None? || s.chanAt[k].b.None?)
    {
      SavedInv(s, k);
      assert ChanSound(s, k);
    }

    lemma SavedSteady(s: Loop, k: nat)
      requires Steady(s) && k < |s.chanAt| && !s.chanAt[k].survivorPending
      ensures Steady(Saved(s, k))
    {
      SavedInv(s, k);
    }

    lemma SavedDone(s: Loop, t: Loop, u: Loop, k: nat)
      requires Steady(s) && k < |s.chanAt| && s.chanAt[k].survivorPending && t == Saved(s, k)
      requires Settles(t, u) && Inv(u) && u.closing == t.closing && u.tearing == t.tearing
      requires u.chanAt[k].a.None? && u.chanAt[k].b.None?
      ensures Steady(u.(tearing := {}))
    {
      assert Stages(u, {}) by {
        SavedInv(s, k);
        SettlesStages(t, u, {});
      }
      Untorn(u, k);
    }

    lemma Untorn(u: Loop, k: nat)
      requires Inv(u) && Stages(u, {}) && k < |u.chanAt| && u.tearing == {k}
      requires u.chanAt[k].a.None? && u.chanAt[k].b.None?
      ensures Inv(u.(tearing := {})) && Stages(u.(tearing := {}), {})
    {
      var v := ChanRevised(u, k, u.chanAt[k], u.posts, {});
      assert v == u.(tearing := {});
      assert ChanSound(u, k);
      assert InvVacant(v) by { ChanRevisedKeeps(u, k, u.chanAt[k], u.posts, {}); }
      RoomsUntouched(u, k, u.chanAt[k], u.posts, {});
      ChanRevisedStages(u, k, u.chanAt[k], u.posts, {});
    }

    // ---------------------------------------------------------------- events: arrivals

    /** on_accept for one arrival: admitted if the process, its address's sessions and its
        address's handshakes are all below their limits and the reactor takes it. */
    method AcceptOne(a: Arrival)
      requires Steady(Now())
      modifies this
      ensures Steady(Now()) && Now() == Arrived(old(Now()), a) && (Traced(old(Now())) ==> Traced(Now()))
    {
      var room := HasRoom(a.ip);
      if room && a.registers {
        AdmittedSteady(Now(), a.ip);
        AdmittedTraced(Now(), a.ip);
        Admit(a.ip);
      }
    }

    method HasRoom(ip: seq<byte>) returns (ok: bool)
      ensures ok == Admissible(Now(), ip)
    {
      if connCount >= lim.maxConns { return false; }
      if Count(sessions, ip) >= lim.sessionLimit { return false; }
      ok := Count(handshakes, ip) < MAX_HANDSHAKES_PER_IP;
    }

    lemma AdmittedTraced(s: Loop, ip: seq<byte>)
      requires Links(s)
      ensures Traced(s) ==> Traced(Admitted(s, ip))
    {
      AdmittedJoins(s, ip);
      if Traced(s) { TracedJoins(s, Admitted(s, ip)); }
    }

    lemma AdmittedSteady(s: Loop, ip: seq<byte>)
      requires Steady(s) && Admissible(s, ip)
      ensures Steady(Admitted(s, ip))
    {
      AdmittedKeeps(s, ip);
      AdmittedStages(s, ip);
    }

    method Admit(ip: seq<byte>)
      modifies this
      ensures Now() == Admitted(old(Now()), ip)
    {
      TakeSlots(ip);
      table := table + {|conns|};
      conns := conns + [NewConn(ip)];
      connCount := connCount + 1;
    }

    method TakeSlots(ip: seq<byte>)
      modifies this`sessions, this`handshakes
      ensures sessions == Taken(old(sessions), ip) && handshakes == Taken(old(handshakes), ip)
    {
      sessions := Taken(sessions, ip);
      handshakes := Taken(handshakes, ip);
    }

    /** on_accept: drains everybody who is waiting to be accepted. */
    method OnAccept(arrivals: seq<Arrival>)
      requires Steady(Now())
      modifies this
      ensures Steady(Now()) && Now() == ArrivedAll(old(Now()), arrivals) && (Traced(old(Now())) ==> Traced(Now()))
    {
      var i := 0;
      while i < |arrivals|
        invariant i <= |arrivals| && Steady(Now()) && (Traced(old(Now())) ==> Traced(Now()))
        invariant ArrivedAll(Now(), arrivals[i..]) == ArrivedAll(old(Now()), arrivals)
      {
        assert arrivals[i..][0] == arrivals[i] && arrivals[i..][1..] == arrivals[i + 1..];
        AcceptOne(arrivals[i]);
        i := i + 1;
      }
    }

    /** sweep: after a batch of events. */
    method Sweep()
      requires Steady(Now())
      modifies this
      ensures Steady(Now()) && Now() == Swept(old(Now())) && Follows(old(Now()), Now())
    {
      SameConnsFollows(Now(), Swept(Now()));
      SweptKeeps(Now());
      SweptStages(Now());
      Purge();
    }

    method Purge()
      modifies this
      ensures Now() == Swept(old(Now()))
    {
      PurgeChannels();
      PurgeTable();
    }

    method PurgeTable()
      modifies this`table, this`dying
      ensures table == (set i | i in old(table) && i !in old(dying)) && dying == []
    {
      table := set i | i in table && i !in dying;
      dying := [];
    }

    method PurgeChannels()
      modifies this`leases, this`matchCount, this`chans
      ensures chans == KeptChans(old(Now())) && matchCount == old(matchCount) - |old(chans) - chans|
      ensures leases == map x | x in old(leases) && LeaseKept(old(Now()), x) :: old(leases)[x]
    {
      var kept := set k | k in chans && !(k < |chanAt| && ChanDone(chanAt[k]));
      leases := map x | x in leases && LeaseStays(leases[x], kept) :: leases[x];
      matchCount := matchCount - |chans - kept|;
      chans := kept;
    }

    /** A lease outlives its connection as long as the match it was taken into is kept. */
    predicate LeaseStays(o: nat, kept: set<nat>)
      reads this
    {
      o < |conns| &&
      ((conns[o].stage != Dead && conns[o].lease) ||
       (conns[o].ch.Some? && conns[o].ch.value < |chanAt| && conns[o].ch.value in kept))
    }

    // ---------------------------------------------------------------- the loop

    constructor (limits: Limits)
      ensures lim == limits && Steady(Now()) && Traced(Now()) && conns == [] && posts == []
    {
      lim := limits;
      conns, table, roomAt, rooms, chanAt, chans := [], {}, [], map[], [], {};
      queue, dying, pendingAuth, posts := [], [], {}, [];
      txTotal, connCount, matchCount := 0, 0, 0;
      sessions, handshakes, leases := map[], map[], map[];
      closing, tearing := {}, {};
    }

    /** One event; events for connections that are already gone are ignored, and a
        verification returns only to the connection that waits for it. */
    method Handle(e: Event)
      requires Steady(Now()) && Traced(Now())
      modifies this
      ensures Steady(Now()) && Traced(Now())
      ensures !e.Accepts? && !Hears(old(Now()), e) ==> Follows(old(Now()), Now())
      ensures Hears(old(Now()), e) ==>
                Reads(old(Now()), Now(), e.c, P.Step(View(old(Now()), e.c), P.Read(e.chunk.value)))
      ensures Justified(old(Now()), Now(), e)
    {
      ghost var s := Now();
      React(e);
      if Hears(s, e) {
        TracedReads(s, Now(), e.c, e.chunk.value);
      } else if !e.Accepts? {
        TracedFollows(s, Now());
      }
    }

    method React(e: Event)
      requires Steady(Now())
      modifies this
      ensures Steady(Now())
      ensures e.Accepts? ==> Now() == ArrivedAll(old(Now()), e.arrivals) && (Traced(old(Now())) ==> Traced(Now()))
      ensures !e.Accepts? && !Hears(old(Now()), e) ==> Follows(old(Now()), Now())
      ensures Hears(old(Now()), e) ==>
                Reads(old(Now()), Now(), e.c, P.Step(View(old(Now()), e.c), P.Read(e.chunk.value)))
      ensures Justified(old(Now()), Now(), e)
    {
      FollowsSelf(Now());
      match e {
        case Accepts(arrivals) => OnAccept(arrivals);
        case Readable(c, chunk, tooFast) => if c < |conns| && conns[c].stage != Dead { OnReadable(c, chunk, tooFast); }
        case Writable(c) => if c < |conns| && conns[c].stage != Dead { OnWritable(c); }
        case Expired(c) => if c < |conns| && conns[c].stage != Dead { OnTimeout(c); }
        case Verified(c, player) =>
          if c < |conns| && (conns[c].stage == Dead || c in pendingAuth) { ResumeAuth(c, player); }
        case SaveReturned(k) => if k < |chanAt| { OnResultSaved(k); }
        case BatchEnds => Sweep();
      }
    }

    /** Behind the first command, an event closes at most the connection it is about and its
        partner, or the sides of the match it is about.  Bytes do so only if their sender has
        offended or a send has failed, writability only if the send has failed. */
    ghost predicate Justified(s: Loop, t: Loop, e: Event) {
      match e
      case Readable(c, chunk, tooFast) =>
        Live(s, c) && s.conns[c].stage != FirstFrame ==> Judged(s, t, c, Offends(s.conns[c], chunk, tooFast))
      case Writable(c) => OnFailure(s, t, Circle(s, c))
      case Expired(c) => Spares(s, t, Circle(s, c))
      case SaveReturned(k) => if k < |s.chanAt| then Spares(s, t, Sides(s, k)) else t == s
      case BatchEnds => Spares(s, t, {})
      case _ => true
    }

    /** The event brings bytes to a live connection. */
    ghost predicate Hears(s: Loop, e: Event) { e.Readable? && Live(s, e.c) && e.chunk.Some? }

    /** Whatever happens, in whatever order: between any two events every invariant holds, and
        every connection on its way through the queue has been treated as QueuePath says. */
    method Run(script: seq<Event>)
      requires Steady(Now()) && Traced(Now())
      modifies this
      ensures Steady(Now()) && Traced(Now())
    {
      var i := 0;
      while i < |script|
        invariant Steady(Now()) && Traced(Now())
      {
        Handle(script[i]);
        i := i + 1;
      }
    }
  }

  datatype Arrival = Arrival(ip: seq<byte>, registers: bool)

  datatype Event =
    | Accepts(arrivals: seq<Arrival>)
    | Readable(c: nat, chunk: Option<seq<byte>>, tooFast: bool)
    | Writable(c: nat)
    | Expired(c: nat)
    | Verified(c: nat, player: Option<int>)
    | SaveReturned(k: nat)
    | BatchEnds

  function Arrived(s: Loop, a: Arrival): Loop {
    if Admissible(s, a.ip) && a.registers then Admitted(s, a.ip) else s
  }

  function ArrivedAll(s: Loop, arrivals: seq<Arrival>): Loop
    decreases |arrivals|
  {
    if |arrivals| == 0 then s else ArrivedAll(Arrived(s, arrivals[0]), arrivals[1..])
  }
}
