/** The stage a connection is in fixes which pointers and slots it holds; the steps by
    which handlers move connections from stage to stage. */
module RelayStages {
  import opened Wrappers
  import opened Bytes
  import opened Framing
  import opened ClientStream
  import opened RelayState
  import opened RelaySteps
  import opened RelayClose
  import opened RelayMatch
  import opened RelayFrame

  /** A player id is never held without its lease. */
  predicate Known(c: Conn) { c.lease || c.playerId == 0 }

  predicate Waits(c: Conn) { c.stage == FirstFrame || c.stage == Auth || c.stage == Queued }

  /** Nobody is ready, nor told anything, before it is in a lobby or a room, and whoever wants
      the queue is never in a room, nobody else in the queue or a lobby.  Only who is ready
      forwards, and from a room is ready only whose last READY read there said so. */
  predicate MindOk(c: Conn) {
    (Waits(c) ==> Unheard(c)) && (c.stage == InRoom ==> c.intent != ToQueue) &&
    (c.stage == Queued || c.stage == InLobby ==> c.intent == ToQueue) && (c.stage == Forwarding ==> c.ready) &&
    (c.stage != Dead ==> MeansIt(c))
  }

  /** In a room only who said so last is ready. */
  predicate MeansIt(c: Conn) { c.ready && c.intent != ToQueue ==> LastReady(c.heard, false) }

  predicate Untold(c: Conn) { c.sent == [] && c.tx == [] }

  /** Neither told anything nor heard in a room. */
  predicate Unheard(c: Conn) { Untold(c) && !c.ready && c.heard == [] }

  /** A live connection's stage agrees with everything that refers to it. */
  ghost predicate StageOk(s: Loop, i: nat)
    requires i < |s.conns|
  {
    var c := s.conns[i];
    (c.stage == Dead || Known(c)) && MindOk(c) &&
    match c.stage
    case FirstFrame => c.room.None? && c.ch.None? && c.handshake && !c.lease
    case Auth => c.room.None? && c.ch.None? && c.handshake && !c.lease && (s.lim.meta ==> i in s.pendingAuth)
    case Queued => c.room.None? && c.ch.None? && !c.handshake && i in s.queue
    case InRoom => c.room.Some? && c.ch.None? && !c.handshake
    case InLobby => c.room.None? && c.ch.Some? && !c.handshake
    case Forwarding => c.room.None? && c.ch.Some? && !c.handshake
    case Dead => true
  }

  /** Every stage agrees, except for connections a handler is just moving. */
  ghost predicate Stages(s: Loop, moving: set<nat>) {
    forall i :: 0 <= i < |s.conns| && i !in moving ==> StageOk(s, i)
  }

  /** What holds whenever no handler is running. */
  ghost predicate Steady(s: Loop) {
    Inv(s) && Stages(s, {}) && s.closing == {} && s.tearing == {} && |s.queue| <= 1
  }

  /** A handler at work on the given connections. */
  ghost predicate Working(s: Loop, moving: set<nat>) {
    Inv(s) && Stages(s, moving) && s.closing == {} && s.tearing == {} && |s.queue| <= 1
  }

  /** Whoever is in a room match had said READY(1) last among the frames read in its room. */
  lemma RoomMatchIsAgreed(s: Loop, i: nat)
    requires Steady(s) && Live(s, i) && s.conns[i].stage == Forwarding && s.conns[i].intent != ToQueue
    ensures var heard := s.conns[i].heard;
            exists k: nat :: IsLastReady(heard, k) && |heard[k].payload| > 0 && heard[k].payload[0] != 0
  {
    assert StageOk(s, i);
    LastReadyIs(s.conns[i].heard, false);
  }

  /** What a handler-free state says about every live connection: its stage is Queued, InRoom,
      or InLobby or Forwarding exactly when the queue, a slot of a registered room, or a side
      of a registered channel names it; handshake slots and pending verifications are those
      of the first two stages; who is not in a room or match has been told nothing; and no two
      share a player id. */
  lemma SteadyMeans(s: Loop, i: nat)
    requires Steady(s) && Live(s, i)
    ensures var st := s.conns[i].stage;
            (st == Queued <==> i in s.queue) &&
            (st == InRoom <==> exists r: nat, host :: RoomOpen(s, r) && Slot(s.roomAt[r], host) == Some(i)) &&
            (st in {InLobby, Forwarding} <==> exists k: nat, a :: ChanOpen(s, k) && Side(s.chanAt[k], a) == Some(i)) &&
            (s.conns[i].handshake <==> st in {FirstFrame, Auth}) &&
            (s.lim.meta ==> (st == Auth <==> i in s.pendingAuth)) &&
            (s.conns[i].playerId != 0 ==> s.conns[i].playerId > 0) &&
            (st in {FirstFrame, Auth, Queued} ==> s.conns[i].sent == [] && s.conns[i].tx == []) &&
            (forall j: nat :: j != i && Live(s, j) && s.conns[i].playerId != 0 ==>
               s.conns[j].playerId != s.conns[i].playerId)
  {
    assert StageOk(s, i) && ConnLinked(s, i);
    var c := s.conns[i];
    if c.room.Some? {
      assert RoomOpen(s, c.room.value) && Slot(s.roomAt[c.room.value], c.isHost) == Some(i);
    }
    if c.ch.Some? {
      assert ChanOpen(s, c.ch.value) && Side(s.chanAt[c.ch.value], c.isA) == Some(i);
    }
    forall r: nat, host | RoomOpen(s, r) && Slot(s.roomAt[r], host) == Some(i)
      ensures c.room == Some(r)
    {
      assert SlotLinked(s, r, host);
    }
    forall k: nat, a | ChanOpen(s, k) && Side(s.chanAt[k], a) == Some(i)
      ensures c.ch == Some(k)
    {
      assert SideLinked(s, k, a);
    }
    forall j: nat | j != i && Live(s, j) && c.playerId != 0
      ensures s.conns[j].playerId != c.playerId
    {
      assert StageOk(s, j);
    }
  }

  /** Nobody who waits, but those in x, was told anything. */
  ghost predicate NoneTold(s: Loop, t: Loop, x: set<nat>) {
    |t.conns| == |s.conns| &&
    forall i :: 0 <= i < |s.conns| && i !in x && Live(t, i) && Waits(s.conns[i]) ==>
      t.conns[i].sent + t.conns[i].tx == s.conns[i].sent + s.conns[i].tx
  }

  lemma EvolvesStages(s: Loop, t: Loop, moving: set<nat>)
    requires Evolves(s, t) && NoneTold(s, t, moving) && Stages(s, moving)
    ensures Stages(t, moving)
  {
    forall i | 0 <= i < |t.conns| && i !in moving
      ensures StageOk(t, i)
    {
      assert StageOk(s, i) && ConnEvolves(s.conns[i], t.conns[i]);
      if Live(t, i) && Waits(s.conns[i]) { assert t.conns[i].sent + t.conns[i].tx == []; }
    }
  }

  lemma EvolvesWorking(s: Loop, t: Loop, moving: set<nat>)
    requires Working(s, moving) && Evolves(s, t) && NoneTold(s, t, moving)
    requires Inv(t) && t.closing == s.closing && t.tearing == s.tearing
    ensures Working(t, moving)
  {
    EvolvesStages(s, t, moving);
  }

  /** A connection that died no longer needs to be moved anywhere. */
  lemma DeadIsPlaced(s: Loop, moving: set<nat>, c: nat)
    requires Stages(s, moving) && c < |s.conns| && !Live(s, c)
    ensures Stages(s, moving - {c})
  {
    forall i | 0 <= i < |s.conns| && i !in moving - {c}
      ensures StageOk(s, i)
    {}
  }

  lemma Placed(s: Loop, moving: set<nat>, c: nat)
    requires Stages(s, moving) && c < |s.conns| && StageOk(s, c)
    ensures Stages(s, moving - {c})
  {
    forall i | 0 <= i < |s.conns| && i !in moving - {c}
      ensures StageOk(s, i)
    {}
  }

  /** Buffer limits and output streams after one connection's record changed in place. */
  lemma BuffersInPlace(s: Loop, t: Loop, i: nat)
    requires Buffers(s) && Outputs(s) && i < |s.conns|
    requires |t.conns| == |s.conns| && t.conns == s.conns[i := t.conns[i]]
    requires t.txTotal == s.txTotal && t.lim == s.lim
    requires t.conns[i].tx == s.conns[i].tx && t.conns[i].sent == s.conns[i].sent
    requires (s.conns[i].stage != Dead ==> |t.conns[i].rx| <= RX_CAP) &&
             (t.conns[i].stage == Dead <==> s.conns[i].stage == Dead)
    ensures Buffers(t) && Outputs(t)
  {
    TxSumUpdate(s.conns, i, t.conns[i]);
  }

  lemma WakeupsInPlace(s: Loop, t: Loop, i: nat)
    requires Wakeups(s) && Retouched(s, t, i)
    requires var c, d := s.conns[i], t.conns[i];
             d.tx == c.tx && d.wantWrite == c.wantWrite && d.readPaused == c.readPaused &&
             d.onRead == c.onRead && d.onWrite == c.onWrite
    ensures Wakeups(t)
  {
    forall j | 0 <= j < |t.conns|
      ensures Awake(t, j)
    {
      assert Awake(s, j);
    }
  }

  // ---------------------------------------------------------------- receive buffers

  /** Replacing the receive buffer, a READY flag or the like touches no invariant. */
  lemma RewrittenKeeps(s: Loop, i: nat, d: Conn)
    requires Inv(s) && i < |s.conns| && SameLinks(s.conns[i], d)
    requires d.tx == s.conns[i].tx && d.sent == s.conns[i].sent && d.wantWrite == s.conns[i].wantWrite
    requires d.readPaused == s.conns[i].readPaused && d.onRead == s.conns[i].onRead && d.onWrite == s.conns[i].onWrite
    requires d.stage == Dead || |d.rx| <= RX_CAP
    ensures Inv(Revised(s, i, d, 0))
  {
    var t := Revised(s, i, d, 0);
    assert Retouched(s, t, i);
    assert Skeleton(t) by { TouchedSkeleton(s, t); }
    BuffersInPlace(s, t, i);
    WakeupsInPlace(s, t, i);
  }

  lemma RewrittenStages(s: Loop, i: nat, d: Conn, delta: int, moving: set<nat>)
    requires Stages(s, moving) && i < |s.conns| && SameLinks(s.conns[i], d) && (MindOk(s.conns[i]) ==> MindOk(d))
    ensures Stages(Revised(s, i, d, delta), moving)
  {
    var t := Revised(s, i, d, delta);
    forall j | 0 <= j < |t.conns| && j !in moving
      ensures StageOk(t, j)
    {
      assert StageOk(s, j);
    }
  }

  // ---------------------------------------------------------------- changing stage

  function Staged(s: Loop, i: nat, st: Stage): Loop
    requires i < |s.conns|
  {
    s.(conns := s.conns[i := s.conns[i].(stage := st)])
  }

  /** Only the queue and the pending authentications care which live stage it is. */
  lemma StagedKeeps(s: Loop, i: nat, st: Stage)
    requires Inv(s) && Live(s, i) && st != Dead
    requires i !in s.queue && i !in s.pendingAuth
    ensures Inv(Staged(s, i, st))
  {
    var t := Staged(s, i, st);
    assert Retouched(s, t, i);
    assert Skeleton(t) by { TouchedSkeleton(s, t); }
    BuffersInPlace(s, t, i);
    WakeupsInPlace(s, t, i);
  }

  lemma StagedStages(s: Loop, i: nat, st: Stage, moving: set<nat>)
    requires Stages(s, moving) && i < |s.conns|
    ensures Stages(Staged(s, i, st), moving + {i})
  {
    var t := Staged(s, i, st);
    forall j | 0 <= j < |t.conns| && j !in moving + {i}
      ensures StageOk(t, j)
    {
      assert StageOk(s, j);
    }
  }

  // ---------------------------------------------------------------- authentication

  /** The per-IP handshake slot goes back when authentication is over. */
  function Greeted(s: Loop, i: nat): Loop
    requires i < |s.conns|
  {
    var c := s.conns[i];
    s.(conns := s.conns[i := c.(handshake := false)],
       handshakes := if c.handshake then Release(s.handshakes, c.ip) else s.handshakes)
  }

  lemma GreetedShaking(s: Loop, i: nat, x: seq<byte>)
    requires Live(s, i)
    ensures LiveFrom(Greeted(s, i).conns, x) == LiveFrom(s.conns, x)
    ensures ShakingFrom(Greeted(s, i).conns, x) ==
            if x == s.conns[i].ip && s.conns[i].handshake then ShakingFrom(s.conns, x) - {i}
            else ShakingFrom(s.conns, x)
    ensures x == s.conns[i].ip && s.conns[i].handshake ==> i in ShakingFrom(s.conns, x)
  {
    GreetedCensus(s, i);
  }

  lemma GreetedCensus(s: Loop, i: nat)
    requires i < |s.conns|
    ensures var conns := Greeted(s, i).conns;
            |conns| == |s.conns| && forall j :: 0 <= j < |s.conns| ==>
              conns[j].stage == s.conns[j].stage && conns[j].ip == s.conns[j].ip &&
              conns[j].handshake == (s.conns[j].handshake && j != i)
  {}

  lemma GreetedCounts(s: Loop, i: nat)
    requires Counts(s) && Live(s, i)
    ensures Counts(Greeted(s, i))
  {
    var t := Greeted(s, i);
    assert LiveSet(t.conns) == LiveSet(s.conns);
    ReleaseCount(s.handshakes, s.conns[i].ip);
    forall x
      ensures Count(t.sessions, x) == |LiveFrom(t.conns, x)|
      ensures Count(t.handshakes, x) == |ShakingFrom(t.conns, x)|
    {
      GreetedShaking(s, i, x);
    }
  }

  lemma GreetedLinks(s: Loop, i: nat)
    requires Links(s) && Wakeups(s) && Live(s, i)
    ensures Links(Greeted(s, i)) && Wakeups(Greeted(s, i))
  {
    var t := Greeted(s, i);
    forall j | 0 <= j < |t.conns|
      ensures ConnLinked(t, j) && Awake(t, j)
    {
      assert ConnLinked(s, j) && Awake(s, j);
    }
    forall r | 0 <= r < |t.roomAt|
      ensures SlotLinked(t, r, true) && SlotLinked(t, r, false)
    {
      assert SlotLinked(s, r, true) && SlotLinked(s, r, false);
    }
    forall k | 0 <= k < |t.chanAt|
      ensures SideLinked(t, k, true) && SideLinked(t, k, false)
    {
      assert SideLinked(s, k, true) && SideLinked(s, k, false);
    }
  }

  lemma GreetedRest(s: Loop, i: nat)
    requires Live(s, i)
    ensures Leases(s) ==> Leases(Greeted(s, i))
    ensures Channels(s) ==> Channels(Greeted(s, i))
    ensures RoomsOccupied(s) ==> RoomsOccupied(Greeted(s, i))
  {
    var t := Greeted(s, i);
    if Leases(s) {
      forall x | x in t.leases
        ensures LeaseHeld(t, x)
      {
        assert LeaseHeld(s, x);
      }
    }
    if Channels(s) {
      forall k | 0 <= k < |t.chanAt|
        ensures ChanSound(t, k)
      {
        assert ChanSound(s, k);
      }
      forall n | 0 <= n < |t.posts|
        ensures PostOk(t, t.posts[n])
      {
        assert PostOk(s, s.posts[n]);
      }
    }
  }

  lemma GreetedKeeps(s: Loop, i: nat)
    requires Inv(s) && Live(s, i)
    ensures Inv(Greeted(s, i))
  {
    GreetedCounts(s, i);
    GreetedLinks(s, i);
    GreetedRest(s, i);
    BuffersInPlace(s, Greeted(s, i), i);
    GreetedTables(s, i);
  }

  lemma GreetedTables(s: Loop, i: nat)
    requires Tables(s) && QueueOk(s) && Live(s, i)
    ensures Tables(Greeted(s, i)) && QueueOk(Greeted(s, i))
  {}

  /** A connection waits for its authentication to return. */
  function Pending(s: Loop, i: nat, waiting: bool): Loop {
    s.(pendingAuth := if waiting then s.pendingAuth + {i} else s.pendingAuth - {i})
  }

  lemma PendingKeeps(s: Loop, i: nat, waiting: bool)
    requires Inv(s) && i < |s.conns|
    requires waiting ==> Live(s, i) && s.conns[i].stage == Auth && |s.pendingAuth| < s.lim.maxPendingAuth
    ensures Inv(Pending(s, i, waiting))
  {
    var t := Pending(s, i, waiting);
    PendingPointers(s, i, waiting);
    assert Tables(t) && QueueOk(t) by { PendingTables(s, i, waiting); }
    assert Buffers(t) && Outputs(t) && Counts(t) by { PendingLedger(s, i, waiting); }
  }

  lemma PendingTables(s: Loop, i: nat, waiting: bool)
    requires Tables(s) && QueueOk(s) && i < |s.conns|
    requires waiting ==> Live(s, i) && s.conns[i].stage == Auth && |s.pendingAuth| < s.lim.maxPendingAuth
    ensures Tables(Pending(s, i, waiting)) && QueueOk(Pending(s, i, waiting))
  {
    if !waiting { SmallerSet(Pending(s, i, waiting).pendingAuth, s.pendingAuth); }
  }

  lemma PendingLedger(s: Loop, i: nat, waiting: bool)
    requires Buffers(s) && Outputs(s) && Counts(s)
    ensures var t := Pending(s, i, waiting);
            Buffers(t) && Outputs(t) && Counts(t)
  {}

  lemma PendingPointers(s: Loop, i: nat, waiting: bool)
    requires Links(s) && Wakeups(s) && Leases(s) && Channels(s) && RoomsOccupied(s)
    ensures Links(Pending(s, i, waiting)) && Wakeups(Pending(s, i, waiting)) && RoomsOccupied(Pending(s, i, waiting))
    ensures Leases(Pending(s, i, waiting)) && Channels(Pending(s, i, waiting))
  {
    var t := Pending(s, i, waiting);
    SameLoopParts(s, t);
  }

  /** Invariants about pointers and matches depend on the tables they read and nothing else. */
  lemma SameLoopParts(s: Loop, t: Loop)
    requires s.conns == t.conns && s.roomAt == t.roomAt && s.rooms == t.rooms && s.chanAt == t.chanAt
    requires s.chans == t.chans && s.leases == t.leases && s.posts == t.posts && s.tearing == t.tearing
    ensures Links(s) ==> Links(t)
    ensures Wakeups(s) ==> Wakeups(t)
    ensures Leases(s) ==> Leases(t)
    ensures Channels(s) ==> Channels(t)
    ensures RoomsOccupied(s) ==> RoomsOccupied(t)
  {
    assert t == s.(lim := t.lim, table := t.table, queue := t.queue, dying := t.dying, pendingAuth := t.pendingAuth,
                   txTotal := t.txTotal, connCount := t.connCount, matchCount := t.matchCount,
                   sessions := t.sessions, handshakes := t.handshakes, closing := t.closing,
                   refused := t.refused);
    SameLinksParts(s, t);
    if Wakeups(s) {
      forall i | 0 <= i < |t.conns|
        ensures Awake(t, i)
      {
        assert Awake(s, i);
      }
    }
    if Leases(s) {
      forall x | x in t.leases
        ensures LeaseHeld(t, x)
      {
        assert LeaseHeld(s, x);
      }
      forall i: nat | Live(t, i) && t.conns[i].lease
        ensures t.conns[i].playerId in t.leases && t.leases[t.conns[i].playerId] == i && t.conns[i].playerId > 0
      {
        assert Live(s, i);
      }
    }
    if Channels(s) {
      forall k | 0 <= k < |t.chanAt|
        ensures ChanSound(t, k)
      {
        assert ChanSound(s, k);
      }
      forall n | 0 <= n < |t.posts|
        ensures PostOk(t, t.posts[n])
      {
        assert PostOk(s, s.posts[n]);
      }
    }
  }

  lemma SameLinksParts(s: Loop, t: Loop)
    requires s.conns == t.conns && s.roomAt == t.roomAt && s.rooms == t.rooms && s.chanAt == t.chanAt
    requires s.chans == t.chans
    ensures Links(s) ==> Links(t)
    ensures RoomsOccupied(s) ==> RoomsOccupied(t)
  {
    if Links(s) {
      forall i | 0 <= i < |t.conns|
        ensures ConnLinked(t, i)
      {
        assert ConnLinked(s, i);
      }
      forall q | 0 <= q < |t.roomAt|
        ensures SlotLinked(t, q, true) && SlotLinked(t, q, false)
      {
        assert SlotLinked(s, q, true) && SlotLinked(s, q, false);
      }
      forall k | 0 <= k < |t.chanAt|
        ensures SideLinked(t, k, true) && SideLinked(t, k, false)
      {
        assert SideLinked(s, k, true) && SideLinked(s, k, false);
      }
    }
    if RoomsOccupied(s) {
      forall r | 0 <= r < |t.roomAt| && RoomOpen(t, r)
        ensures t.roomAt[r].host.Some? || t.roomAt[r].guest.Some?
      {
        assert RoomOpen(s, r);
      }
    }
  }

  /** Connection i's record replaced by d, the leases by ls. */
  function Relabelled(s: Loop, i: nat, d: Conn, ls: map<int, nat>): Loop
    requires i < |s.conns|
  {
    s.(conns := s.conns[i := d], leases := ls)
  }

  predicate SamePlace(c: Conn, d: Conn) {
    d == c.(playerId := d.playerId, lease := d.lease)
  }

  /** The authenticated player takes the lease of its id, if nobody holds it. */
  function Identified(s: Loop, i: nat, id: int): Loop
    requires i < |s.conns|
  {
    if id <= 0 || id in s.leases then Relabelled(s, i, s.conns[i].(playerId := id), s.leases)
    else Relabelled(s, i, s.conns[i].(playerId := id, lease := true), s.leases[id := i])
  }

  lemma IdentifiedHeld(s: Loop, i: nat, id: int)
    requires Leases(s) && Live(s, i) && !s.conns[i].lease && s.conns[i].ch.None?
    ensures forall x :: x in Identified(s, i, id).leases ==> LeaseHeld(Identified(s, i, id), x)
  {
    var t := Identified(s, i, id);
    forall x | x in t.leases
      ensures LeaseHeld(t, x)
    {
      if x in s.leases { assert LeaseHeld(s, x); }
    }
  }

  lemma IdentifiedOwn(s: Loop, i: nat, id: int, j: nat)
    requires Leases(s) && Live(s, i) && !s.conns[i].lease && Live(s, j)
    ensures var t := Identified(s, i, id);
            t.conns[j].lease ==>
              t.conns[j].playerId > 0 && t.conns[j].playerId in t.leases && t.leases[t.conns[j].playerId] == j
  {
    if id <= 0 || id in s.leases {
      RelabelledOwn(s, i, s.conns[i].(playerId := id), s.leases, j);
    } else {
      RelabelledOwn(s, i, s.conns[i].(playerId := id, lease := true), s.leases[id := i], j);
    }
  }

  lemma RelabelledOwn(s: Loop, i: nat, d: Conn, ls: map<int, nat>, j: nat)
    requires Leases(s) && i < |s.conns| && Live(s, j)
    requires forall x :: x in s.leases ==> x in ls && ls[x] == s.leases[x]
    requires d.lease ==> d.playerId > 0 && d.playerId in ls && ls[d.playerId] == i
    ensures var t := Relabelled(s, i, d, ls);
            t.conns[j].lease ==>
              t.conns[j].playerId > 0 && t.conns[j].playerId in t.leases && t.leases[t.conns[j].playerId] == j
  {}

  lemma IdentifiedLeases(s: Loop, i: nat, id: int)
    requires Leases(s) && Live(s, i) && !s.conns[i].lease && s.conns[i].ch.None?
    ensures Leases(Identified(s, i, id))
  {
    var t := Identified(s, i, id);
    IdentifiedHeld(s, i, id);
    forall j: nat | Live(t, j) && t.conns[j].lease
      ensures t.conns[j].playerId > 0 && t.conns[j].playerId in t.leases && t.leases[t.conns[j].playerId] == j
    {
      IdentifiedOwn(s, i, id, j);
    }
  }

  lemma RelabelledLinks(s: Loop, i: nat, d: Conn, ls: map<int, nat>)
    requires Links(s) && Wakeups(s) && Live(s, i) && SamePlace(s.conns[i], d)
    ensures Links(Relabelled(s, i, d, ls)) && Wakeups(Relabelled(s, i, d, ls))
  {
    var t := Relabelled(s, i, d, ls);
    forall j | 0 <= j < |t.conns|
      ensures ConnLinked(t, j) && Awake(t, j)
    {
      assert ConnLinked(s, j) && Awake(s, j);
      RelabelledConn(s, i, d, ls, j);
    }
    forall r | 0 <= r < |t.roomAt|
      ensures SlotLinked(t, r, true) && SlotLinked(t, r, false)
    {
      assert SlotLinked(s, r, true) && SlotLinked(s, r, false);
    }
    forall k | 0 <= k < |t.chanAt|
      ensures SideLinked(t, k, true) && SideLinked(t, k, false)
    {
      assert SideLinked(s, k, true) && SideLinked(s, k, false);
    }
  }

  lemma RelabelledConn(s: Loop, i: nat, d: Conn, ls: map<int, nat>, j: nat)
    requires i < |s.conns| && j < |s.conns| && SamePlace(s.conns[i], d) && ConnLinked(s, j) && Awake(s, j)
    ensures ConnLinked(Relabelled(s, i, d, ls), j) && Awake(Relabelled(s, i, d, ls), j)
  {}

  lemma RelabelledCounts(s: Loop, i: nat, d: Conn, ls: map<int, nat>)
    requires Counts(s) && Live(s, i) && SamePlace(s.conns[i], d)
    ensures Counts(Relabelled(s, i, d, ls))
  {
    var t := Relabelled(s, i, d, ls);
    assert LiveSet(t.conns) == LiveSet(s.conns);
    forall ip
      ensures LiveFrom(t.conns, ip) == LiveFrom(s.conns, ip)
      ensures ShakingFrom(t.conns, ip) == ShakingFrom(s.conns, ip)
    {}
  }

  lemma RelabelledChannels(s: Loop, i: nat, d: Conn, ls: map<int, nat>)
    requires Channels(s) && RoomsOccupied(s) && Live(s, i)
    ensures Channels(Relabelled(s, i, d, ls)) && RoomsOccupied(Relabelled(s, i, d, ls))
  {
    var t := Relabelled(s, i, d, ls);
    forall k | 0 <= k < |t.chanAt|
      ensures ChanSound(t, k)
    {
      assert ChanSound(s, k);
    }
    forall n | 0 <= n < |t.posts|
      ensures PostOk(t, t.posts[n])
    {
      assert PostOk(s, s.posts[n]);
    }
    forall r | 0 <= r < |t.roomAt| && RoomOpen(t, r)
      ensures t.roomAt[r].host.Some? || t.roomAt[r].guest.Some?
    {
      assert RoomOpen(s, r);
    }
  }

  lemma RelabelledTables(s: Loop, i: nat, d: Conn, ls: map<int, nat>)
    requires Tables(s) && QueueOk(s) && Live(s, i) && SamePlace(s.conns[i], d)
    ensures Tables(Relabelled(s, i, d, ls)) && QueueOk(Relabelled(s, i, d, ls))
  {}

  lemma RelabelledKeeps(s: Loop, i: nat, d: Conn, ls: map<int, nat>)
    requires Inv(s) && Live(s, i) && SamePlace(s.conns[i], d) && Leases(Relabelled(s, i, d, ls))
    ensures Inv(Relabelled(s, i, d, ls))
  {
    RelabelledLinks(s, i, d, ls);
    RelabelledCounts(s, i, d, ls);
    RelabelledChannels(s, i, d, ls);
    RelabelledTables(s, i, d, ls);
    BuffersInPlace(s, Relabelled(s, i, d, ls), i);
  }

  /** Two live connections never share a player id: the lease goes to one of them only. */
  lemma IdentifiedKeeps(s: Loop, i: nat, id: int)
    requires Inv(s) && Live(s, i) && !s.conns[i].lease && s.conns[i].ch.None?
    ensures Inv(Identified(s, i, id))
  {
    IdentifiedLeases(s, i, id);
    var t := Identified(s, i, id);
    RelabelledKeeps(s, i, t.conns[i], t.leases);
  }

  lemma InPlaceStages(s: Loop, t: Loop, i: nat, moving: set<nat>)
    requires Stages(s, moving) && i < |s.conns| && |t.conns| == |s.conns| && t.conns == s.conns[i := t.conns[i]]
    requires t.lim == s.lim && t.queue == s.queue
    requires forall x :: x in s.pendingAuth && x != i ==> x in t.pendingAuth
    ensures Stages(t, moving + {i})
  {
    forall j | 0 <= j < |t.conns| && j !in moving + {i}
      ensures StageOk(t, j)
    {
      assert StageOk(s, j);
    }
  }

  // ---------------------------------------------------------------- the queue

  function Enqueued(s: Loop, i: nat): Loop {
    s.(queue := s.queue + [i])
  }

  lemma EnqueuedKeeps(s: Loop, i: nat)
    requires Inv(s) && Live(s, i) && s.conns[i].stage == Queued && i !in s.queue
    ensures Inv(Enqueued(s, i))
  {
    SameLoopParts(s, Enqueued(s, i));
    SameLedger(s, Enqueued(s, i));
    SameTables(s, Enqueued(s, i));
    assert QueueOk(Enqueued(s, i));
  }

  lemma EnqueuedStages(s: Loop, i: nat, moving: set<nat>)
    requires Stages(s, moving)
    ensures Stages(Enqueued(s, i), moving)
  {
    var t := Enqueued(s, i);
    forall j | 0 <= j < |t.conns| && j !in moving
      ensures StageOk(t, j)
    {
      assert StageOk(s, j);
    }
  }

  function Dequeued(s: Loop, n: nat): Loop
    requires n <= |s.queue|
  {
    s.(queue := s.queue[n..])
  }

  lemma DequeuedKeeps(s: Loop, n: nat)
    requires Inv(s) && n <= |s.queue|
    ensures Inv(Dequeued(s, n))
    ensures forall i :: 0 <= i < n ==> s.queue[i] !in Dequeued(s, n).queue
  {
    var t := Dequeued(s, n);
    SameLoopParts(s, t);
    SameLedger(s, t);
    SameTables(s, t);
    DequeuedQueue(s, n);
  }

  lemma DequeuedQueue(s: Loop, n: nat)
    requires QueueOk(s) && n <= |s.queue|
    ensures QueueOk(Dequeued(s, n))
    ensures forall i :: 0 <= i < n ==> s.queue[i] !in Dequeued(s, n).queue
  {
    var t := Dequeued(s, n);
    forall i, j | 0 <= i < n && 0 <= j < |t.queue|
      ensures s.queue[i] != t.queue[j]
    {
      assert t.queue[j] == s.queue[n + j];
    }
    forall i, j | 0 <= i < j < |t.queue|
      ensures t.queue[i] != t.queue[j]
    {
      assert t.queue[i] == s.queue[n + i] && t.queue[j] == s.queue[n + j];
    }
  }

  lemma DequeuedStages(s: Loop, n: nat, moving: set<nat>)
    requires Stages(s, moving) && n <= |s.queue|
    ensures Stages(Dequeued(s, n), moving + (set i | i in s.queue[..n]))
  {
    var t := Dequeued(s, n);
    assert s.queue == s.queue[..n] + s.queue[n..];
    forall j | 0 <= j < |t.conns| && j !in moving + (set i | i in s.queue[..n])
      ensures StageOk(t, j)
    {
      assert StageOk(s, j);
    }
  }
}
