/** Facts about what single handlers do between two sends or closes. */
module RelayHandling {
  import opened Wrappers
  import opened Bytes
  import opened Framing
  import opened Screening
  import opened ClientStream
  import opened RelayState
  import opened RelaySteps
  import opened RelayClose
  import opened RelayMatch
  import opened RelayFrame
  import opened RelayStages
  import opened RelayRooms

  /** Everything ever accepted for sending to a connection, in order. */
  function Stream(s: Loop, i: nat): seq<byte>
    requires i < |s.conns|
  {
    s.conns[i].sent + s.conns[i].tx
  }

  // ---------------------------------------------------------------- on_writable

  lemma DrainedOthers(s: Loop, c: nat, d: Conn, delta: int)
    requires InvBut(s, c) && Live(s, c) && Drains(s.conns[c], d) && |d.tx| == |s.conns[c].tx| + delta
    ensures InvBut(Revised(s, c, d, delta), c)
  {
    RevisedKeeps(s, c, d, delta);
    RevisedWakeupsBut(s, c, d, delta);
  }

  lemma DrainedOwn(s: Loop, c: nat, d: Conn, delta: int)
    requires Links(s) && Live(s, c) && Awake(s, c) && Drains(s.conns[c], d)
    ensures Awake(Revised(s, c, d, delta), c)
  {
    RevisedAwake(s, c, d, delta);
  }

  lemma DrainedLimits(s: Loop, c: nat, d: Conn, delta: int)
    requires Buffers(s) && Outputs(s) && Live(s, c) && Drains(s.conns[c], d) && |d.tx| == |s.conns[c].tx| + delta
    ensures Buffers(Revised(s, c, d, delta)) && Outputs(Revised(s, c, d, delta))
  {
    TxSumUpdate(s.conns, c, d);
  }

  lemma DrainedKeeps(s: Loop, c: nat, d: Conn, delta: int)
    requires Inv(s) && Live(s, c) && Drains(s.conns[c], d) && |d.tx| == |s.conns[c].tx| + delta
    ensures var t := Revised(s, c, d, delta);
            InvBut(t, c) && Live(t, c) && Awake(t, c) && Buffers(t) && Outputs(t)
  {
    var t := Revised(s, c, d, delta);
    assert Awake(t, c) by {
      assert Awake(s, c);
      DrainedOwn(s, c, d, delta);
    }
    assert InvBut(t, c) by {
      InvWeaken(s, c);
      DrainedOthers(s, c, d, delta);
    }
    assert Buffers(t) && Outputs(t) by { DrainedLimits(s, c, d, delta); }
  }

  lemma DrainedAbove(s: Loop, c: nat, d: Conn, delta: int)
    requires Inv(s) && Live(s, c) && Drains(s.conns[c], d) && |d.tx| == |s.conns[c].tx| + delta
    requires |d.tx| > SEND_HIGH_WATER
    ensures Inv(Revised(s, c, d, delta))
  {
    var t := Revised(s, c, d, delta);
    assert Wakeups(t) by {
      assert Awake(s, c);
      RevisedWakeups(s, c, d, delta);
    }
    assert InvBut(t, c) && Buffers(t) && Outputs(t) by { DrainedKeeps(s, c, d, delta); }
  }

  /** From s to t the kernel has taken some of c's pending bytes and nothing else of c's stream
      has changed, c's interest is right, and below the mark its partner is read again. */
  ghost predicate Relieved(s: Loop, t: Loop, c: nat) {
    exists d, delta :: DrainedTo(s, t, c, d, delta)
  }

  ghost predicate DrainedTo(s: Loop, t: Loop, c: nat, d: Conn, delta: int) {
    c < |s.conns| && Drains(s.conns[c], d) && |d.tx| == |s.conns[c].tx| + delta && t == Unblocked(s, c, d, delta)
  }

  function Unblocked(s: Loop, c: nat, d: Conn, delta: int): Loop
    requires c < |s.conns|
  {
    if |d.tx| <= SEND_HIGH_WATER then Paused(Revised(s, c, d, delta), c, false) else Revised(s, c, d, delta)
  }

  lemma DrainedEvolves(s: Loop, c: nat, d: Conn, delta: int)
    requires Live(s, c) && Drains(s.conns[c], d)
    ensures Evolves(s, Revised(s, c, d, delta))
  {
    RevisedEvolves(s, c, d, delta);
  }

  /** With the backlog below the mark the partner reads again, and all is well. */
  lemma ResumedInv(t: Loop, c: nat)
    requires InvBut(t, c) && Live(t, c) && Awake(t, c) && Buffers(t) && Outputs(t)
    ensures Inv(Paused(t, c, false)) && Evolves(t, Paused(t, c, false))
    ensures c < |Paused(t, c, false).conns| && Stream(Paused(t, c, false), c) == Stream(t, c)
  {
    PausedEvolves(t, c, false);
    assert Wakeups(Paused(t, c, false)) by { ResumedAll(t, c); }
    PausedSkeleton(t, c, false);
    PausedBuffers(t, c, false);
  }

  lemma PausedSkeleton(t: Loop, c: nat, pause: bool)
    requires Skeleton(t) && c < |t.conns|
    ensures Skeleton(Paused(t, c, pause))
  {
    PausedTouched(t, c, pause);
    TouchedSkeleton(t, Paused(t, c, pause));
  }

  lemma PausedBuffers(t: Loop, c: nat, pause: bool)
    requires Buffers(t) && Outputs(t) && c < |t.conns|
    ensures var u := Paused(t, c, pause);
            Buffers(u) && Outputs(u) && |u.conns| == |t.conns| && Stream(u, c) == Stream(t, c)
  {
    PausedTouched(t, c, pause);
    PausedCasts(t, c, pause);
    SameBuffers(t, Paused(t, c, pause));
  }

  lemma PausedCasts(t: Loop, c: nat, pause: bool)
    requires c < |t.conns|
    ensures var u := Paused(t, c, pause);
            |u.conns| == |t.conns| && u.txTotal == t.txTotal && u.lim == t.lim &&
            forall i :: 0 <= i < |t.conns| ==> u.conns[i].stage == t.conns[i].stage
  {}

  lemma SameBuffers(t: Loop, u: Loop)
    requires Buffers(t) && Outputs(t) && |u.conns| == |t.conns| && u.txTotal == t.txTotal && u.lim == t.lim
    requires TxSum(u.conns) == TxSum(t.conns)
    requires forall i :: 0 <= i < |t.conns| ==> u.conns[i].stage == t.conns[i].stage
    requires forall i :: 0 <= i < |t.conns| ==>
               u.conns[i].tx == t.conns[i].tx && u.conns[i].rx == t.conns[i].rx && u.conns[i].sent == t.conns[i].sent
    ensures Buffers(u) && Outputs(u)
  {}

  lemma ResumedAll(t: Loop, c: nat)
    requires Links(t) && WakeupsBut(t, c) && Live(t, c) && Awake(t, c)
    ensures Wakeups(Paused(t, c, false))
  {
    var u := Paused(t, c, false);
    assert WakeupsBut(u, c) by { ResumedWakeups(t, c); }
    assert Links(u) by { PausedLinks(t, c, false); }
    assert Awake(u, c) by { ResumedOwn(t, c); }
    assert FeederReads(u, c) by { UnpausedFeeder(t, c); }
    if Feeder(u, c).Some? { FeederMutual(u, c); }
    ResumedFully(u, c);
  }

  lemma PausedLinks(t: Loop, c: nat, pause: bool)
    requires Links(t) && c < |t.conns|
    ensures Links(Paused(t, c, pause))
  {
    PausedTouched(t, c, pause);
    var u := Paused(t, c, pause);
    if u != t { RetouchLinks(t, u, Feeder(t, c).value); }
  }

  lemma ResumedOwn(t: Loop, c: nat)
    requires Links(t) && Live(t, c) && Awake(t, c)
    ensures Awake(Paused(t, c, false), c) && Live(Paused(t, c, false), c)
  {
    if Feeder(t, c).Some? { FeederMutual(t, c); }
  }

  // ---------------------------------------------------------------- moving connections

  lemma RewrittenWorking(s: Loop, i: nat, d: Conn, moving: set<nat>)
    requires Working(s, moving) && i < |s.conns| && SameLinks(s.conns[i], d) && (MindOk(s.conns[i]) ==> MindOk(d))
    requires d.tx == s.conns[i].tx && d.sent == s.conns[i].sent && d.wantWrite == s.conns[i].wantWrite
    requires d.readPaused == s.conns[i].readPaused && d.onRead == s.conns[i].onRead && d.onWrite == s.conns[i].onWrite
    requires d.stage == Dead || |d.rx| <= RX_CAP
    ensures Working(Revised(s, i, d, 0), moving)
  {
    RewrittenKeeps(s, i, d);
    RewrittenStages(s, i, d, 0, moving);
  }

  lemma IdentifiedIsWorking(s: Loop, c: nat, id: int)
    requires Working(s, {c}) && Live(s, c) && !s.conns[c].lease && s.conns[c].ch.None?
    ensures Working(Identified(s, c, id), {c})
  {
    IdentifiedKeeps(s, c, id);
    InPlaceStages(s, Identified(s, c, id), c, {c});
    assert {c} + {c} == {c};
  }

  lemma StagedWorking(s: Loop, i: nat, st: Stage, moving: set<nat>)
    requires Working(s, moving) && Live(s, i) && st != Dead && i !in s.queue && i !in s.pendingAuth
    ensures Working(Staged(s, i, st), moving + {i})
  {
    StagedKeeps(s, i, st);
    StagedStages(s, i, st, moving);
  }

  /** Neither in the queue nor awaiting authentication. */
  lemma NotWaiting(s: Loop, i: nat)
    requires QueueOk(s) && Tables(s) && s.closing == {} && i < |s.conns|
    requires s.conns[i].stage != Queued && s.conns[i].stage != Auth
    ensures i !in s.queue && i !in s.pendingAuth
  {}

  lemma WorkingPlaced(s: Loop, moving: set<nat>, c: nat)
    requires Working(s, moving) && c < |s.conns| && StageOk(s, c)
    ensures Working(s, moving - {c})
  {
    Placed(s, moving, c);
  }

  // ---------------------------------------------------------------- receiving

  /** A read may take the buffer over its limit; the connection can then only be closed. */
  lemma GrownBut(s: Loop, c: nat, d: Conn)
    requires Inv(s) && Live(s, c) && d == s.conns[c].(rx := d.rx, got := d.got)
    ensures InvBut(Revised(s, c, d, 0), c)
  {
    assert InvBut(s, c) by { InvWeaken(s, c); }
    RevisedKeeps(s, c, d, 0);
    RevisedWakeupsBut(s, c, d, 0);
  }

  lemma ParseShorter(rx: seq<byte>)
    ensures |Parse(rx).rest| <= |rx|
  {
    SplitPartition(rx);
  }

  // ---------------------------------------------------------------- forwarding

  /** MATCH_SUMMARY as the relay reads it: a good checksum and exactly 21 payload bytes. */
  function SummaryOf(u: seq<byte>): Option<Summary> {
    if |u| == 28 && u[2] == MATCH_SUMMARY && ChecksumOk(u) then
      Some(Summary(u[3], LeValue(u[4..8]), LeValue(u[8..12]), LeValue(u[12..16]), LeValue(u[16..20]),
                   LeValue(u[20..24])))
    else None
  }

  function FirstSummary(us: seq<seq<byte>>): Option<Summary> {
    if us == [] then None
    else if SummaryOf(us[0]).Some? then SummaryOf(us[0])
    else FirstSummary(us[1..])
  }

  /** The first account counts; later ones are ignored. */
  function Keep(have: Option<Summary>, more: Option<Summary>): Option<Summary> {
    if have.Some? then have else more
  }

  /** From s to t nobody died, peer's stream grew by pushed, nobody else's changed. */
  ghost predicate Sent(s: Loop, t: Loop, peer: Option<nat>, pushed: seq<byte>) {
    |t.conns| == |s.conns| && LiveSet(t.conns) == LiveSet(s.conns) &&
    (peer.None? ==> pushed == []) &&
    (peer.Some? ==> peer.value < |s.conns| && Stream(t, peer.value) == Stream(s, peer.value) + pushed) &&
    forall i :: 0 <= i < |s.conns| && peer != Some(i) ==> Stream(t, i) == Stream(s, i)
  }

  lemma SentNothing(s: Loop, peer: Option<nat>)
    requires peer.Some? ==> peer.value < |s.conns|
    ensures Sent(s, s, peer, [])
  {
    if peer.Some? {
      assert Stream(s, peer.value) + [] == Stream(s, peer.value);
    }
  }

  lemma SameLive(s: Loop, t: Loop, c: nat)
    requires |t.conns| == |s.conns| && LiveSet(t.conns) == LiveSet(s.conns) && Live(s, c)
    ensures Live(t, c)
  {
    assert c in LiveSet(s.conns);
  }

  lemma LeftShorter(rx: seq<byte>)
    ensures |Left(rx)| <= |rx|
  {
    SplitPartition(rx);
  }

  /** Rewriting a receive buffer sends nothing. */
  lemma SentRewritten(s: Loop, t: Loop, c: nat, rx: seq<byte>, peer: Option<nat>, pushed: seq<byte>)
    requires Sent(s, t, peer, pushed) && c < |t.conns|
    ensures Sent(s, Revised(t, c, t.conns[c].(rx := rx), 0), peer, pushed)
  {
    var u := Revised(t, c, t.conns[c].(rx := rx), 0);
    assert LiveSet(u.conns) == LiveSet(t.conns);
  }

  /** The account the ranked loop will have taken when it ends. */
  ghost function SummaryFrom(rx: seq<byte>, pos: nat, have: Option<Summary>): Option<Summary>
    requires pos <= |rx|
    decreases |rx| - pos
  {
    if pos + 2 > |rx| || LengthAt(rx, pos) > MAX_PAYLOAD + 1 || pos + LengthAt(rx, pos) + 6 > |rx| then have
    else SummaryFrom(rx, pos + LengthAt(rx, pos) + 6, Keep(have, SummaryOf(rx[pos..pos + LengthAt(rx, pos) + 6])))
  }

  lemma SummaryUnfold(rx: seq<byte>, pos: nat, n: nat, next: nat, have: Option<Summary>)
    requires pos <= next <= |rx| && next == pos + n && Scan(rx[pos..]) == Whole(n)
    ensures SummaryFrom(rx, pos, have) == SummaryFrom(rx, next, Keep(have, SummaryOf(rx[pos..next])))
  {
    ScanAt(rx, pos);
  }

  lemma FirstUnfold(rx: seq<byte>, pos: nat, n: nat, next: nat)
    requires pos <= next <= |rx| && next == pos + n && Scan(rx[pos..]) == Whole(n)
    ensures FirstSummary(Split(rx[pos..]).units) ==
            Keep(SummaryOf(rx[pos..next]), FirstSummary(Split(rx[next..]).units))
  {
    SliceBetween(rx, pos, n, next);
    FirstOfCons(rx[pos..next], Split(rx[next..]).units);
  }

  lemma {:induction false} SummaryFromIsFirst(rx: seq<byte>, pos: nat, have: Option<Summary>)
    requires pos <= |rx|
    ensures SummaryFrom(rx, pos, have) == Keep(have, FirstSummary(Split(rx[pos..]).units))
    decreases |rx| - pos
  {
    if Scan(rx[pos..]).Whole? {
      var n := Scan(rx[pos..]).total;
      var next := pos + n;
      SummaryUnfold(rx, pos, n, next, have);
      FirstUnfold(rx, pos, n, next);
      SummaryFromIsFirst(rx, next, Keep(have, SummaryOf(rx[pos..next])));
    } else if pos + 2 <= |rx| {
      ScanAt(rx, pos);
    }
  }

  lemma FirstOfCons(u: seq<byte>, us: seq<seq<byte>>)
    ensures FirstSummary([u] + us) == Keep(SummaryOf(u), FirstSummary(us))
  {
    assert ([u] + us)[1..] == us;
  }

  // ---------------------------------------------------------------- storing an account

  function SumOf(c: Channel, a: bool): Option<Summary> { if a then c.sumA else c.sumB }

  function WithSum(c: Channel, a: bool, sum: Option<Summary>): Channel {
    if a then c.(sumA := Keep(c.sumA, sum)) else c.(sumB := Keep(c.sumB, sum))
  }

  /** A summary arrives: the first one from each side is kept. */
  function Accounted(s: Loop, k: nat, a: bool, sum: Option<Summary>): Loop
    requires k < |s.chanAt|
  {
    ChanRevised(s, k, WithSum(s.chanAt[k], a, sum), s.posts, s.tearing)
  }

  lemma AccountedKeeps(s: Loop, k: nat, a: bool, sum: Option<Summary>)
    requires Steady(s) && k < |s.chanAt|
    ensures Steady(Accounted(s, k, a, sum))
  {
    var d := WithSum(s.chanAt[k], a, sum);
    assert ChanSound(s, k);
    assert InvVacant(Accounted(s, k, a, sum)) by { ChanRevisedKeeps(s, k, d, s.posts, s.tearing); }
    RoomsUntouched(s, k, d, s.posts, s.tearing);
    ChanRevisedStages(s, k, d, s.posts, s.tearing);
  }

  lemma ChanRevisedStages(s: Loop, k: nat, d: Channel, ps: seq<Post>, tearing: set<nat>)
    requires Stages(s, {}) && k < |s.chanAt|
    ensures Stages(ChanRevised(s, k, d, ps, tearing), {})
  {
    forall i | 0 <= i < |s.conns|
      ensures StageOk(ChanRevised(s, k, d, ps, tearing), i)
    {
      assert StageOk(s, i);
    }
  }

  lemma SettledCalm(s: Loop, k: nat, queued: bool)
    requires k < |s.chanAt|
    ensures Calm(s, Settled(s, k, queued))
  {
    var t := Settled(s, k, queued);
    ChanRevisedCalm(s, k, t.chanAt[k], t.posts, s.tearing);
  }

  lemma SettledSteady(s: Loop, k: nat, queued: bool)
    requires Steady(s) && k < |s.chanAt| && !s.chanAt[k].handled
    requires s.chanAt[k].sumA.Some? && s.chanAt[k].sumB.Some?
    ensures Steady(Settled(s, k, queued))
  {
    var t := Settled(s, k, queued);
    assert InvVacant(t) by { SettledKeeps(s, k, queued); }
    RoomsUntouched(s, k, t.chanAt[k], t.posts, s.tearing);
    ChanRevisedStages(s, k, t.chanAt[k], t.posts, s.tearing);
  }

  // ---------------------------------------------------------------- starting to forward

  /** Both sides are there and may be moved to the forwarding stage. */
  ghost predicate CanForward(s: Loop, k: nat) {
    k < |s.chanAt| && s.chanAt[k].a.Some? && s.chanAt[k].b.Some? &&
    Movable(s, s.chanAt[k].a.value, k) && Movable(s, s.chanAt[k].b.value, k) &&
    s.chanAt[k].a != s.chanAt[k].b
  }

  ghost predicate Movable(s: Loop, i: nat, k: nat) {
    Live(s, i) && Known(s.conns[i]) && s.conns[i].ch == Some(k) && s.conns[i].room.None? && !s.conns[i].handshake &&
    s.conns[i].stage != Queued && s.conns[i].stage != Auth
  }

  /** Ready, and whoever comes from a room has said so there last. */
  predicate Means(s: Loop, i: nat) { i < |s.conns| && s.conns[i].ready && MeansIt(s.conns[i]) }

  lemma ForwardingStage(s: Loop, i: nat, k: nat, j: nat)
    requires Movable(s, i, k) && Means(s, i)
    ensures StageOk(Staged(s, i, Forwarding), i)
    ensures Movable(s, j, k) ==> Movable(Staged(s, i, Forwarding), j, k)
    ensures Means(s, j) ==> Means(Staged(s, i, Forwarding), j)
  {}

  /** One side enters the forwarding stage, the other can still do so. */
  lemma MovedWorking(s: Loop, i: nat, k: nat, j: nat, moving: set<nat>)
    requires Working(s, moving) && Movable(s, i, k) && Means(s, i)
    ensures Working(Staged(s, i, Forwarding), moving - {i})
    ensures Movable(s, j, k) ==> Movable(Staged(s, i, Forwarding), j, k)
    ensures Means(s, j) ==> Means(Staged(s, i, Forwarding), j)
  {
    NotWaiting(s, i);
    ForwardingStage(s, i, k, j);
    StagedWorking(s, i, Forwarding, moving);
    WorkingPlaced(Staged(s, i, Forwarding), moving + {i}, i);
    assert (moving + {i}) - {i} == moving - {i};
  }

  // ---------------------------------------------------------------- pairing

  /** A connection that may be paired: queued, popped, nothing else to its name. */
  ghost predicate Poppable(s: Loop, i: nat) {
    Live(s, i) && Known(s.conns[i]) && s.conns[i].stage == Queued && s.conns[i].room.None? && s.conns[i].ch.None? &&
    !s.conns[i].handshake && Unheard(s.conns[i]) && s.conns[i].intent == ToQueue
  }

  lemma QueuedIsPoppable(s: Loop, i: nat)
    requires QueueOk(s) && Stages(s, {}) && s.closing == {} && i in s.queue
    ensures Poppable(s, i)
  {
    assert StageOk(s, i);
  }

  lemma PairedWorking(s: Loop, a: nat, b: nat, ranked: bool)
    requires Working(s, {a, b}) && Poppable(s, a) && Poppable(s, b) && a != b
    ensures Working(Matched(s, a, b, None, ranked), {a, b})
    ensures ChanOpen(Matched(s, a, b, None, ranked), |s.chanAt|)
    ensures Matched(s, a, b, None, ranked).queue == s.queue
  {
    MatchedKeeps(s, a, b, None, ranked);
    MatchedStages(s, a, b, None, ranked, {a, b});
    assert {a, b} + {a, b} == {a, b};
  }

  /** Popped from the queue and given a channel, the two enter the lobby. */
  function Lobbied(s: Loop, a: nat, b: nat, ranked: bool): Loop
    requires a < |s.conns| && b < |s.conns|
  {
    var t := Matched(s, a, b, None, ranked);
    Staged(Staged(t, a, InLobby), b, InLobby)
  }

  lemma LobbiedSteady(s: Loop, a: nat, b: nat, ranked: bool)
    requires Working(s, {a, b}) && Poppable(s, a) && Poppable(s, b) && a != b
    requires a !in s.queue && b !in s.queue
    ensures Steady(Lobbied(s, a, b, ranked))
  {
    var t := Matched(s, a, b, None, ranked);
    PairedWorking(s, a, b, ranked);
    BothEnter(t, a, b);
  }

  lemma BothEnter(t: Loop, a: nat, b: nat)
    requires Working(t, {a, b}) && Enters(t, a) && Enters(t, b) && a != b
    ensures Steady(Staged(Staged(t, a, InLobby), b, InLobby))
  {
    EnterLobby(t, a, {a, b});
    assert {a, b} - {a} == {b} && {b} - {b} == {};
    EnterLobby(Staged(t, a, InLobby), b, {b});
  }

  ghost predicate Enters(t: Loop, i: nat) {
    Live(t, i) && i !in t.queue && t.conns[i].stage == Queued && t.conns[i].ch.Some? && t.conns[i].room.None? &&
    !t.conns[i].handshake && Known(t.conns[i]) && Unheard(t.conns[i]) && t.conns[i].intent == ToQueue
  }

  lemma EnterLobby(t: Loop, i: nat, moving: set<nat>)
    requires Working(t, moving) && i in moving && Enters(t, i)
    ensures Working(Staged(t, i, InLobby), moving - {i})
  {
    assert i !in t.pendingAuth;
    StagedWorking(t, i, InLobby, moving);
    WorkingPlaced(Staged(t, i, InLobby), moving + {i}, i);
    assert (moving + {i}) - {i} == moving - {i};
  }

  lemma PopTwo(s: Loop)
    requires Inv(s) && Stages(s, {}) && s.closing == {} && s.tearing == {} && |s.queue| == 2
    ensures var t, a, b := Dequeued(s, 2), s.queue[0], s.queue[1];
            Working(t, {a, b}) && Poppable(t, a) && Poppable(t, b) && a != b && a !in t.queue && b !in t.queue
  {
    var a, b := s.queue[0], s.queue[1];
    QueuedIsPoppable(s, a);
    QueuedIsPoppable(s, b);
    DequeuedKeeps(s, 2);
    assert Stages(Dequeued(s, 2), {a, b}) by { PopStages(s); }
  }

  lemma PopStages(s: Loop)
    requires Stages(s, {}) && |s.queue| == 2
    ensures Stages(Dequeued(s, 2), {s.queue[0], s.queue[1]})
  {
    var a, b := s.queue[0], s.queue[1];
    DequeuedStages(s, 2, {});
    assert s.queue[..2] == [a, b];
    assert (set i | i in s.queue[..2]) == {a, b};
    assert {} + {a, b} == {a, b};
  }

  // ---------------------------------------------------------------- the lobby

  lemma LobbyHead(rx: seq<byte>)
    requires |rx| >= 6 && Scan(rx).Whole?
    ensures Scan(rx) == Whole(LengthAt(rx, 0) + 6) && LengthAt(rx, 0) + 6 <= |rx|
  {
    ScanAt(rx, 0);
    assert rx[0..] == rx;
  }

  /** What the lobby's reading loop does at a whole frame. */
  lemma ReadLobbyNext(rx: seq<byte>, n: nat)
    requires |rx| >= 6 && Scan(rx) == Whole(n) && n <= |rx|
    ensures n < 7 || ((rx[2] == READY || rx[2] == QUEUE_CANCEL) && !ChecksumOk(rx[..n])) ==>
              ReadLobby(rx) == ReadLobby(rx[n..])
    ensures n >= 7 && rx[2] != READY && rx[2] != QUEUE_CANCEL ==> ReadLobby(rx) == Undecided(rx)
  {
    if n >= 7 { assert rx[..n][2] == rx[2]; }
  }
}
