/** The event-loop relay as data: connections, rooms, channels, queue and process-wide
    ledgers, and the invariants that hold between any two handler calls.

    Connections, rooms and channels are identity objects: they live in arenas and are named
    by their index; the loop's own tables say which of them are registered. */
module RelayState {
  import opened Wrappers
  import opened Bytes
  import opened Framing
  import opened ClientStream

  const SEND_HIGH_WATER: nat := 64 * 1024
  const SEND_HARD_CAP: nat := 256 * 1024
  const RX_CAP: nat := 64 * 1024
  const MAX_HANDSHAKES_PER_IP: nat := 16

  datatype Stage = FirstFrame | Auth | Queued | InRoom | InLobby | Forwarding | Dead

  /** MATCH_SUMMARY: one player's account of the match. */
  datatype Summary = Summary(won: byte, myScore: nat, myLines: nat, oppScore: nat, oppLines: nat, duration: nat)

  datatype Conn = Conn(
    stage: Stage,
    ip: seq<byte>,
    rx: seq<byte>,          // received, not yet consumed
    tx: seq<byte>,          // accepted for sending, not yet taken by the kernel
    sent: seq<byte>,        // history: everything the kernel has taken
    got: seq<byte>,         // history: everything received
    wantWrite: bool,
    readPaused: bool,
    onRead: bool,           // the interest registered with the reactor
    onWrite: bool,
    handshake: bool,        // holds a per-IP handshake slot
    playerId: int,
    lease: bool,
    intent: Intent,
    joinCode: seq<byte>,
    room: Option<nat>,
    isHost: bool,
    ch: Option<nat>,
    isA: bool,
    ready: bool,
    heard: seq<Frame>)      // history: the frames read in its room

  datatype Room = Room(code: seq<byte>, host: Option<nat>, guest: Option<nat>)

  datatype Channel = Channel(
    ranked: bool,
    a: Option<nat>, b: Option<nat>,
    aId: int, bId: int,
    sumA: Option<Summary>, sumB: Option<Summary>,
    handled: bool,          // the outcome has been decided, once and for all
    inflight: bool,         // the save of the outcome is under way
    survivorPending: bool,  // close the remaining side when the save returns
    disconnectSide: int)

  /** One call of the meta server's post_match, with the summaries it was decided on. */
  datatype Post = Post(match_: nat, a: Option<Summary>, b: Option<Summary>, winner: Option<int>)

  datatype Limits = Limits(meta: bool, maxConns: nat, txBudget: nat, sessionLimit: nat, maxPendingAuth: nat)

  /** A snapshot of the loop.  closing and tearing are proof bookkeeping: connections whose
      close_conn has begun and not finished, channels such a close is taking apart.  refused is
      history: how many sends have failed, the receiver being gone, its socket failing, or the
      data being more than it or the process may hold. */
  datatype Loop = Loop(
    lim: Limits,
    conns: seq<Conn>, table: set<nat>,
    roomAt: seq<Room>, rooms: map<seq<byte>, nat>,
    chanAt: seq<Channel>, chans: set<nat>,
    queue: seq<nat>, dying: seq<nat>, pendingAuth: set<nat>,
    txTotal: int, connCount: int, matchCount: int,
    sessions: map<seq<byte>, nat>, handshakes: map<seq<byte>, nat>,
    leases: map<int, nat>,
    posts: seq<Post>,
    closing: set<nat>, tearing: set<nat>, refused: nat)

  // ---------------------------------------------------------------- readiness

  predicate SaysReady(payload: seq<byte>) { |payload| > 0 && payload[0] != 0 }

  /** What the last READY among fs says, or before, if there is none. */
  function LastReady(fs: seq<Frame>, before: bool): bool {
    if |fs| == 0 then before
    else if fs[|fs| - 1].ty == READY then SaysReady(fs[|fs| - 1].payload)
    else LastReady(fs[..|fs| - 1], before)
  }

  predicate IsLastReady(fs: seq<Frame>, k: nat) {
    k < |fs| && fs[k].ty == READY && forall j :: k < j < |fs| ==> fs[j].ty != READY
  }

  predicate NeverReady(fs: seq<Frame>) { forall j :: 0 <= j < |fs| ==> fs[j].ty != READY }

  /** The last READY decides, by whether its payload has a first byte other than 0. */
  lemma {:induction false} LastReadyIs(fs: seq<Frame>, before: bool)
    ensures LastReady(fs, before) <==>
            (before && NeverReady(fs)) ||
            exists k: nat :: IsLastReady(fs, k) && |fs[k].payload| > 0 && fs[k].payload[0] != 0
  {
    if |fs| > 0 && fs[|fs| - 1].ty == READY {
      assert IsLastReady(fs, |fs| - 1);
    } else if |fs| > 0 {
      var init, f := fs[..|fs| - 1], fs[|fs| - 1];
      assert fs == init + [f];
      LastReadyIs(init, before);
      assert NeverReady(fs) <==> NeverReady(init);
      forall k: nat
        ensures IsLastReady(init + [f], k) <==> IsLastReady(init, k)
      {
        if IsLastReady(init + [f], k) { assert forall j :: k < j < |init| ==> init[j] == (init + [f])[j]; }
      }
    }
  }

  lemma {:induction false} LastReadyAppend(fs: seq<Frame>, gs: seq<Frame>, before: bool)
    ensures LastReady(fs + gs, before) == LastReady(gs, LastReady(fs, before))
  {
    if |gs| > 0 {
      assert (fs + gs)[..|fs + gs| - 1] == fs + gs[..|gs| - 1];
      LastReadyAppend(fs, gs[..|gs| - 1], before);
    } else {
      assert fs + gs == fs;
    }
  }

  // ---------------------------------------------------------------- reading a snapshot

  predicate Live(s: Loop, i: nat) {
    i < |s.conns| && s.conns[i].stage != Dead
  }

  predicate LivePtr(s: Loop, p: Option<nat>) {
    p.Some? && Live(s, p.value)
  }

  ghost function LiveSet(conns: seq<Conn>): set<nat> {
    set i | 0 <= i < |conns| && conns[i].stage != Dead
  }

  ghost function LiveFrom(conns: seq<Conn>, ip: seq<byte>): set<nat> {
    set i | 0 <= i < |conns| && conns[i].stage != Dead && conns[i].ip == ip
  }

  ghost function ShakingFrom(conns: seq<Conn>, ip: seq<byte>): set<nat> {
    set i | 0 <= i < |conns| && conns[i].stage != Dead && conns[i].handshake && conns[i].ip == ip
  }

  function TxSum(conns: seq<Conn>): nat {
    if conns == [] then 0 else TxSum(conns[..|conns| - 1]) + |conns[|conns| - 1].tx|
  }

  function Count(m: map<seq<byte>, nat>, ip: seq<byte>): nat {
    if ip in m then m[ip] else 0
  }

  predicate RoomOpen(s: Loop, r: nat) {
    r < |s.roomAt| && s.roomAt[r].code in s.rooms && s.rooms[s.roomAt[r].code] == r
  }

  predicate ChanOpen(s: Loop, k: nat) {
    k < |s.chanAt| && k in s.chans
  }

  function Slot(r: Room, host: bool): Option<nat> { if host then r.host else r.guest }

  function Side(c: Channel, a: bool): Option<nat> { if a then c.a else c.b }

  /** feeder_of: the connection whose bytes are forwarded to dst. */
  function Feeder(s: Loop, dst: nat): Option<nat>
    requires dst < |s.conns|
  {
    var c := s.conns[dst];
    if c.ch.Some? then
      if c.ch.value < |s.chanAt| then
        var ch := s.chanAt[c.ch.value];
        if ch.a == Some(dst) then ch.b else ch.a
      else None
    else if c.room.Some? then
      if c.room.value < |s.roomAt| then
        if c.isHost then s.roomAt[c.room.value].guest else s.roomAt[c.room.value].host
      else None
    else None
  }

  // ---------------------------------------------------------------- invariants

  /** Pointers agree both ways: a live connection's room or channel is registered and holds
      it in the slot it claims, and every occupied slot points back. */
  ghost predicate ConnLinked(s: Loop, i: nat)
    requires i < |s.conns|
  {
    var c := s.conns[i];
    c.stage != Dead ==>
      (c.room.Some? ==> RoomOpen(s, c.room.value) && Slot(s.roomAt[c.room.value], c.isHost) == Some(i)) &&
      (c.ch.Some? ==> ChanOpen(s, c.ch.value) && Side(s.chanAt[c.ch.value], c.isA) == Some(i)) &&
      !(c.room.Some? && c.ch.Some?)
  }

  ghost predicate SlotLinked(s: Loop, r: nat, host: bool)
    requires r < |s.roomAt|
  {
    var p := Slot(s.roomAt[r], host);
    p.Some? ==> Live(s, p.value) && s.conns[p.value].room == Some(r) && s.conns[p.value].isHost == host
  }

  ghost predicate SideLinked(s: Loop, k: nat, a: bool)
    requires k < |s.chanAt|
  {
    var p := Side(s.chanAt[k], a);
    p.Some? ==> Live(s, p.value) && s.conns[p.value].ch == Some(k) && s.conns[p.value].isA == a
  }

  ghost predicate Links(s: Loop) {
    (forall i :: 0 <= i < |s.conns| ==> ConnLinked(s, i)) &&
    (forall r :: 0 <= r < |s.roomAt| ==> SlotLinked(s, r, true) && SlotLinked(s, r, false)) &&
    (forall k :: 0 <= k < |s.chanAt| ==> SideLinked(s, k, true) && SideLinked(s, k, false)) &&
    (forall code :: code in s.rooms ==> s.rooms[code] < |s.roomAt| && s.roomAt[s.rooms[code]].code == code) &&
    (forall k :: k in s.chans ==> k < |s.chanAt|)
  }

  /** No registered room is empty. */
  ghost predicate RoomsOccupied(s: Loop) {
    forall r :: 0 <= r < |s.roomAt| && RoomOpen(s, r) ==> s.roomAt[r].host.Some? || s.roomAt[r].guest.Some?
  }

  /** Send and receive buffers are within their limits, the process-wide send total is their
      exact sum and within budget. */
  ghost predicate Buffers(s: Loop) {
    s.txTotal == TxSum(s.conns) && s.txTotal <= s.lim.txBudget &&
    forall i :: 0 <= i < |s.conns| ==>
      if s.conns[i].stage == Dead then |s.conns[i].tx| == 0
      else |s.conns[i].tx| <= SEND_HARD_CAP && |s.conns[i].rx| <= RX_CAP
  }

  /** The counters agree with the connections they count and are within their limits. */
  ghost predicate Counts(s: Loop) {
    s.connCount == |LiveSet(s.conns)| + |s.closing| && s.connCount <= s.lim.maxConns &&
    (forall ip :: Count(s.sessions, ip) == |LiveFrom(s.conns, ip)|) &&
    (forall ip :: Count(s.handshakes, ip) == |ShakingFrom(s.conns, ip)|) &&
    (forall ip :: Count(s.sessions, ip) <= s.lim.sessionLimit) &&
    (forall ip :: Count(s.handshakes, ip) <= MAX_HANDSHAKES_PER_IP) &&
    s.matchCount == |s.chans|
  }

  /** The connection table is the live connections plus those on their way out. */
  ghost predicate Tables(s: Loop) {
    (forall i: nat :: Live(s, i) ==> i in s.table) &&
    (forall i :: i in s.table ==> Live(s, i) || i in s.dying || i in s.closing) &&
    (forall i :: i in s.closing ==> i < |s.conns| && !Live(s, i)) &&
    (forall i :: i in s.dying ==> i < |s.conns| && !Live(s, i)) &&
    (forall i :: i in s.pendingAuth ==> Live(s, i) && s.conns[i].stage == Auth) &&
    |s.pendingAuth| <= s.lim.maxPendingAuth
  }

  /** A player id is leased to one connection, for as long as that connection or its
      registered channel lives; a live leased connection owns its own lease. */
  ghost predicate Leases(s: Loop) {
    (forall i: nat :: Live(s, i) && s.conns[i].lease ==>
       s.conns[i].playerId > 0 && s.conns[i].playerId in s.leases && s.leases[s.conns[i].playerId] == i) &&
    (forall x :: x in s.leases ==> LeaseHeld(s, x))
  }

  ghost predicate LeaseHeld(s: Loop, x: int)
    requires x in s.leases
  {
    var o := s.leases[x];
    o < |s.conns| && s.conns[o].playerId == x &&
    ((s.conns[o].stage != Dead && s.conns[o].lease) ||
     (s.conns[o].ch.Some? && ChanOpen(s, s.conns[o].ch.value)))
  }

  /** The registered interest is what the connection needs: read unless paused, write exactly
      while bytes wait; and whoever is paused has a live partner over the high-water mark. */
  ghost predicate Awake(s: Loop, i: nat)
    requires i < |s.conns|
  {
    var c := s.conns[i];
    c.stage != Dead ==>
      c.onRead == !c.readPaused && c.onWrite == c.wantWrite && c.wantWrite == (|c.tx| != 0) &&
      (c.readPaused ==> LivePtr(s, Feeder(s, i)) && |s.conns[Feeder(s, i).value].tx| > SEND_HIGH_WATER)
  }

  ghost predicate Wakeups(s: Loop) {
    forall i :: 0 <= i < |s.conns| ==> Awake(s, i)
  }

  /** Everything ever queued to a live connection is whole frames. */
  ghost predicate Outputs(s: Loop) {
    forall i :: 0 <= i < |s.conns| && s.conns[i].stage != Dead ==> WholeFrames(s.conns[i].sent + s.conns[i].tx)
  }

  ghost predicate QueueOk(s: Loop) {
    (forall i, j :: 0 <= i < j < |s.queue| ==> s.queue[i] != s.queue[j]) &&
    (forall i :: i in s.queue ==> i < |s.conns| && (s.conns[i].stage == Queued || i in s.closing))
  }

  // ---------------------------------------------------------------- outcome of a match

  /** The winner two complete accounts agree on: exactly one claims the win and each side's
      observation of the other matches the other's own numbers. */
  function CrossCheck(a: Summary, b: Summary, aId: int, bId: int): Option<int> {
    if a.won != b.won &&
       a.myScore == b.oppScore && b.myScore == a.oppScore &&
       a.myLines == b.oppLines && b.myLines == a.oppLines
    then Some(if a.won == 1 then aId else bId) else None
  }

  /** The winner a single account names. */
  function Forfeit(a: Option<Summary>, b: Option<Summary>, aId: int, bId: int): int
    requires a.Some? || b.Some?
  {
    if a.Some? then (if a.value.won != 0 then aId else bId)
    else (if b.value.won != 0 then bId else aId)
  }

  /** A post is a verdict on the summaries it was decided on, cross-checked when both exist. */
  predicate PostOk(s: Loop, p: Post) {
    p.match_ < |s.chanAt| && s.chanAt[p.match_].handled && (p.a.Some? || p.b.Some?) &&
    p.winner == if p.a.Some? && p.b.Some?
                then CrossCheck(p.a.value, p.b.value, s.chanAt[p.match_].aId, s.chanAt[p.match_].bId)
                else Some(Forfeit(p.a, p.b, s.chanAt[p.match_].aId, s.chanAt[p.match_].bId))
  }

  ghost predicate ChanSound(s: Loop, k: nat)
    requires k < |s.chanAt|
  {
    var c := s.chanAt[k];
    (c.inflight ==> c.handled) && (c.survivorPending ==> c.inflight && (c.a.None? || c.b.None?)) &&
    (k in s.chans && c.a.Some? != c.b.Some? ==> (c.inflight && c.survivorPending) || k in s.tearing)
  }

  /** No survivor is left behind: a registered channel has two live sides, none, or one that
      the save under way will close.  Each match is posted at most once. */
  ghost predicate Channels(s: Loop) {
    (forall k :: 0 <= k < |s.chanAt| ==> ChanSound(s, k)) &&
    (forall i :: 0 <= i < |s.posts| ==> PostOk(s, s.posts[i])) &&
    (forall i, j :: 0 <= i < j < |s.posts| ==> s.posts[i].match_ != s.posts[j].match_)
  }

  ghost predicate Inv(s: Loop) {
    Links(s) && RoomsOccupied(s) && Buffers(s) && Counts(s) && Tables(s) && Leases(s) &&
    Wakeups(s) && Outputs(s) && QueueOk(s) && Channels(s)
  }

  // The same, except that connection c, about to be closed, may exceed its buffers.

  ghost predicate BuffersBut(s: Loop, c: nat) {
    s.txTotal == TxSum(s.conns) && c < |s.conns| && s.txTotal - |s.conns[c].tx| <= s.lim.txBudget &&
    forall i :: 0 <= i < |s.conns| && i != c ==>
      if s.conns[i].stage == Dead then |s.conns[i].tx| == 0
      else |s.conns[i].tx| <= SEND_HARD_CAP && |s.conns[i].rx| <= RX_CAP
  }

  ghost predicate AwakeBut(s: Loop, i: nat, c: nat)
    requires i < |s.conns|
  {
    var d := s.conns[i];
    d.stage != Dead ==>
      d.onRead == !d.readPaused && d.onWrite == d.wantWrite && d.wantWrite == (|d.tx| != 0) &&
      (d.readPaused ==> LivePtr(s, Feeder(s, i)) &&
                        (Feeder(s, i) == Some(c) || |s.conns[Feeder(s, i).value].tx| > SEND_HIGH_WATER))
  }

  ghost predicate WakeupsBut(s: Loop, c: nat) {
    forall i :: 0 <= i < |s.conns| && i != c ==> AwakeBut(s, i, c)
  }

  ghost predicate OutputsBut(s: Loop, c: nat) {
    forall i :: 0 <= i < |s.conns| && i != c && s.conns[i].stage != Dead ==>
      WholeFrames(s.conns[i].sent + s.conns[i].tx)
  }

  ghost predicate InvBut(s: Loop, c: nat) {
    Links(s) && RoomsOccupied(s) && BuffersBut(s, c) && Counts(s) && Tables(s) && Leases(s) &&
    WakeupsBut(s, c) && OutputsBut(s, c) && QueueOk(s) && Channels(s)
  }

  lemma InvWeaken(s: Loop, c: nat)
    requires Inv(s) && c < |s.conns|
    ensures InvBut(s, c)
  {
    WakeupsWeaken(s, c);
  }

  lemma WakeupsWeaken(s: Loop, c: nat)
    requires Wakeups(s)
    ensures WakeupsBut(s, c)
  {
    forall i | 0 <= i < |s.conns| && i != c
      ensures AwakeBut(s, i, c)
    {
      assert Awake(s, i);
    }
  }

  // ---------------------------------------------------------------- buffer sums

  lemma {:induction false} TxSumUpdate(conns: seq<Conn>, i: nat, c: Conn)
    requires i < |conns|
    ensures TxSum(conns[i := c]) == TxSum(conns) - |conns[i].tx| + |c.tx|
  {
    var last := |conns| - 1;
    if i == last {
      assert conns[i := c][..last] == conns[..last];
    } else {
      TxSumUpdate(conns[..last], i, c);
      assert conns[i := c][..last] == conns[..last][i := c];
    }
  }

  lemma {:induction false} TxSumMember(conns: seq<Conn>, i: nat)
    requires i < |conns|
    ensures |conns[i].tx| <= TxSum(conns)
  {
    if i < |conns| - 1 {
      TxSumMember(conns[..|conns| - 1], i);
    }
  }

  // ---------------------------------------------------------------- what depends on what

  lemma SameLedger(s: Loop, t: Loop)
    requires t.conns == s.conns && t.txTotal == s.txTotal && t.lim == s.lim && t.closing == s.closing
    requires t.sessions == s.sessions && t.handshakes == s.handshakes && t.connCount == s.connCount
    requires t.matchCount == s.matchCount && t.chans == s.chans
    requires Buffers(s) && Outputs(s) && Counts(s)
    ensures Buffers(t) && Outputs(t) && Counts(t)
  {}

  lemma SameTables(s: Loop, t: Loop)
    requires t.conns == s.conns && t.table == s.table && t.dying == s.dying && t.closing == s.closing
    requires t.pendingAuth == s.pendingAuth && t.lim == s.lim && Tables(s)
    ensures Tables(t)
  {}

  // ---------------------------------------------------------------- changes no one points at

  /** Two states of a connection that differ only in buffers and scheduling. */
  predicate SameLinks(c: Conn, d: Conn) {
    c.stage == d.stage && c.ip == d.ip && c.handshake == d.handshake && c.playerId == d.playerId &&
    c.lease == d.lease && c.room == d.room && c.isHost == d.isHost && c.ch == d.ch && c.isA == d.isA
  }

  /** The same, the stage aside: both states are live or both are dead. */
  predicate SameTies(c: Conn, d: Conn) {
    (c.stage == Dead <==> d.stage == Dead) && SameLinks(c, d.(stage := c.stage))
  }

  ghost predicate Retouched(s: Loop, t: Loop, i: nat) {
    i < |s.conns| && t == s.(conns := t.conns, txTotal := t.txTotal) &&
    |t.conns| == |s.conns| && t.conns == s.conns[i := t.conns[i]] &&
    SameTies(s.conns[i], t.conns[i]) &&
    (s.conns[i].stage == t.conns[i].stage || (i !in s.queue && i !in s.pendingAuth))
  }

  lemma RetouchLinks(s: Loop, t: Loop, i: nat)
    requires Retouched(s, t, i) && Links(s)
    ensures Links(t)
  {
    forall j | 0 <= j < |t.conns|
      ensures ConnLinked(t, j)
    {
      assert ConnLinked(s, j);
    }
    forall r | 0 <= r < |t.roomAt|
      ensures SlotLinked(t, r, true) && SlotLinked(t, r, false)
    {
      assert SlotLinked(s, r, true) && SlotLinked(s, r, false);
    }
    forall k | 0 <= k < |t.chanAt|
      ensures SideLinked(t, k, true) && SideLinked(t, k, false)
    {
      assert SideLinked(s, k, true) && SideLinked(s, k, false);
    }
  }

  lemma RetouchCounts(s: Loop, t: Loop, i: nat)
    requires Retouched(s, t, i) && Counts(s)
    ensures Counts(t)
  {
    assert LiveSet(t.conns) == LiveSet(s.conns);
    forall ip
      ensures LiveFrom(t.conns, ip) == LiveFrom(s.conns, ip)
      ensures ShakingFrom(t.conns, ip) == ShakingFrom(s.conns, ip)
    {}
  }

  lemma RetouchRest(s: Loop, t: Loop, i: nat)
    requires Retouched(s, t, i)
    ensures RoomsOccupied(s) ==> RoomsOccupied(t)
    ensures Tables(s) ==> Tables(t)
    ensures QueueOk(s) ==> QueueOk(t)
    ensures Channels(s) ==> Channels(t)
  {
    if Channels(s) {
      forall k | 0 <= k < |t.chanAt|
        ensures ChanSound(t, k)
      {
        assert ChanSound(s, k);
      }
      forall n | 0 <= n < |t.posts|
        ensures PostOk(t, t.posts[n])
      {
        assert PostOk(s, s.posts[n]);
      }
    }
  }

  lemma RetouchLeases(s: Loop, t: Loop, i: nat)
    requires Retouched(s, t, i) && Leases(s)
    ensures Leases(t)
  {
    forall j: nat | Live(t, j) && t.conns[j].lease
      ensures t.conns[j].playerId > 0 && t.conns[j].playerId in t.leases && t.leases[t.conns[j].playerId] == j
    {
      assert Live(s, j);
    }
    forall x | x in t.leases
      ensures LeaseHeld(t, x)
    {
      assert LeaseHeld(s, x);
    }
  }
}
