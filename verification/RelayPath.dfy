/** The event-loop relay seen as so many runs of QueuePath: what the relay's state says about
    one client's stream on its way through the queue to its opponent, and which changes of
    state leave that alone. */
module RelayPath {
  import opened Wrappers
  import opened Bytes
  import opened Framing
  import opened Screening
  import opened ClientStream
  import opened RelayState
  import opened RelaySteps
  import opened RelayClose
  import opened RelayMatch
  import opened RelayFrame
  import opened RelayStages
  import opened RelayRooms
  import opened RelayHandling
  import P = QueuePath

  // ---------------------------------------------------------------- the view of one client

  /** The other side of its match. */
  function Opponent(s: Loop, i: nat): Option<nat>
    requires i < |s.conns|
  {
    var c := s.conns[i];
    if c.ch.Some? && c.ch.value < |s.chanAt| then Side(s.chanAt[c.ch.value], !c.isA) else None
  }

  predicate InRanked(s: Loop, i: nat)
    requires i < |s.conns|
  {
    var c := s.conns[i];
    c.ch.Some? && c.ch.value < |s.chanAt| && s.chanAt[c.ch.value].ranked
  }

  function PathStage(c: Conn): P.Stage {
    match c.stage
    case FirstFrame => P.AtFirstFrame
    case Auth => P.AtAuth
    case Queued => P.AtQueue
    case InLobby => if c.ready then P.AtLobbyReady else P.AtLobby
    case Forwarding => P.AtForward
    case InRoom => P.AtClosed
    case Dead => P.AtClosed
  }

  /** Alive, without a command yet or on its way through the queue, and, once in a match, with
      a live opponent. */
  predicate OnPath(s: Loop, i: nat) {
    Live(s, i) && s.conns[i].stage != InRoom && s.conns[i].room.None? &&
    (s.conns[i].stage == FirstFrame || s.conns[i].intent == ToQueue) &&
    (s.conns[i].ch.Some? ==> LivePtr(s, Opponent(s, i)))
  }

  /** Everything its opponent has got. */
  function Shown(s: Loop, i: nat): seq<byte>
    requires i < |s.conns|
  {
    if LivePtr(s, Opponent(s, i)) then Stream(s, Opponent(s, i).value) else []
  }

  function View(s: Loop, i: nat): P.Link {
    if OnPath(s, i) then P.Link(PathStage(s.conns[i]), s.conns[i].rx, Shown(s, i), InRanked(s, i), s.conns[i].got)
    else P.Gone
  }

  // ---------------------------------------------------------------- what leaves views alone

  /** i's view is as it was, or i is off the path. */
  ghost predicate Stays(s: Loop, t: Loop, i: nat) { View(t, i) == View(s, i) || View(t, i) == P.Gone }

  /** Every connection is somewhere its own events may have taken it. */
  ghost predicate Follows(s: Loop, t: Loop) {
    forall i: nat :: P.Reaches(View(s, i), View(t, i))
  }

  /** Connection c has come from l, the others stay. */
  ghost predicate Moves(s: Loop, t: Loop, c: nat, l: P.Link) {
    P.Reaches(l, View(t, c)) && forall i: nat :: i != c ==> Stays(s, t, i)
  }

  /** Connection c has come from l, the others from where they were. */
  ghost predicate Reads(s: Loop, t: Loop, c: nat, l: P.Link) {
    P.Reaches(l, View(t, c)) && forall i: nat :: i != c ==> P.Reaches(View(s, i), View(t, i))
  }

  ghost predicate Reads2(s: Loop, t: Loop, a: nat, la: P.Link, b: nat, lb: P.Link) {
    P.Reaches(la, View(t, a)) && P.Reaches(lb, View(t, b)) &&
    forall i: nat :: i != a && i != b ==> P.Reaches(View(s, i), View(t, i))
  }

  lemma StaysReaches(s: Loop, t: Loop, i: nat)
    requires Stays(s, t, i)
    ensures P.Reaches(View(s, i), View(t, i))
  {
    P.ReachesSelf(View(s, i));
  }

  lemma FollowsSelf(s: Loop)
    ensures Follows(s, s)
  {
    forall i: nat
      ensures P.Reaches(View(s, i), View(s, i))
    {
      P.ReachesSelf(View(s, i));
    }
  }

  lemma FollowsTrans(s: Loop, t: Loop, u: Loop)
    requires Follows(s, t) && Follows(t, u)
    ensures Follows(s, u)
  {
    forall i: nat
      ensures P.Reaches(View(s, i), View(u, i))
    {
      P.ReachesTrans(View(s, i), View(t, i), View(u, i));
    }
  }

  lemma MovesReads(s: Loop, t: Loop, c: nat, l: P.Link)
    requires Moves(s, t, c, l)
    ensures Reads(s, t, c, l)
  {
    forall i: nat | i != c
      ensures P.Reaches(View(s, i), View(t, i))
    {
      StaysReaches(s, t, i);
    }
  }

  lemma ReadsThen(s: Loop, t: Loop, u: Loop, c: nat, l: P.Link)
    requires Reads(s, t, c, l) && Follows(t, u)
    ensures Reads(s, u, c, l)
  {
    P.ReachesTrans(l, View(t, c), View(u, c));
    forall i: nat | i != c
      ensures P.Reaches(View(s, i), View(u, i))
    {
      P.ReachesTrans(View(s, i), View(t, i), View(u, i));
    }
  }

  // ---------------------------------------------------------------- silence

  /** No live connection outside rooms but those in x was sent anything. */
  ghost predicate Quiet(s: Loop, t: Loop, x: set<nat>) {
    |t.conns| == |s.conns| &&
    forall i :: 0 <= i < |s.conns| && i !in x && Live(t, i) && s.conns[i].room.None? ==> Stream(t, i) == Stream(s, i)
  }

  function Only(p: Option<nat>): set<nat> { if p.Some? then {p.value} else {} }

  ghost predicate Settles(s: Loop, t: Loop) { Evolves(s, t) && Quiet(s, t, {}) }

  // ---------------------------------------------------------------- who is closed with whom

  /** The other side of a connection's room or match. */
  function Mates(s: Loop, d: Conn): set<nat> {
    if d.room.Some? then
      if d.room.value < |s.roomAt| then Only(Slot(s.roomAt[d.room.value], !d.isHost)) else {}
    else if d.ch.Some? && d.ch.value < |s.chanAt| then Only(Side(s.chanAt[d.ch.value], !d.isA))
    else {}
  }

  /** A live connection and its partner. */
  function Circle(s: Loop, c: nat): set<nat> {
    if Live(s, c) then {c} + Mates(s, s.conns[c]) else {}
  }

  function CircleOf(s: Loop, p: Option<nat>): set<nat> { if p.Some? then Circle(s, p.value) else {} }

  function Sides(s: Loop, k: nat): set<nat>
    requires k < |s.chanAt|
  {
    Only(s.chanAt[k].a) + Only(s.chanAt[k].b)
  }

  /** Nobody but those in x is closed on the way from s to t. */
  ghost predicate Spares(s: Loop, t: Loop, x: set<nat>) {
    |t.conns| == |s.conns| && forall i: nat :: Live(s, i) && i !in x ==> Live(t, i)
  }

  lemma SparesTrans(s: Loop, t: Loop, u: Loop, x: set<nat>, y: set<nat>)
    requires Spares(s, t, x) && Spares(t, u, y) && y <= x
    ensures Spares(s, u, x)
  {}

  lemma CircleShrinks(s: Loop, t: Loop, c: nat)
    requires Evolves(s, t)
    ensures Circle(t, c) <= Circle(s, c)
  {
    if Live(t, c) {
      var d := s.conns[c];
      assert ConnEvolves(d, t.conns[c]);
      if d.room.Some? && d.room.value < |s.roomAt| {
        assert RoomEvolves(s.roomAt[d.room.value], t.roomAt[d.room.value]);
      } else if d.ch.Some? && d.ch.value < |s.chanAt| {
        assert ChanEvolves(s.chanAt[d.ch.value], t.chanAt[d.ch.value]);
      }
    }
  }

  lemma PausedSpares(s: Loop, dst: nat, pause: bool)
    requires dst < |s.conns|
    ensures Spares(s, Paused(s, dst, pause), {}) && Paused(s, dst, pause).refused == s.refused
    ensures forall i: nat :: Live(s, i) ==>
              Live(Paused(s, dst, pause), i) && Mates(Paused(s, dst, pause), Paused(s, dst, pause).conns[i]) ==
                                                Mates(s, s.conns[i])
  {}

  lemma GoneSpares(s: Loop, c: nat)
    requires Live(s, c)
    ensures Spares(s, Gone(s, c), {c}) && Mates(Gone(s, c), s.conns[c]) == Mates(s, s.conns[c])
  {}

  /** Nobody is closed unless a send failed, and then at most those in x. */
  ghost predicate OnFailure(s: Loop, t: Loop, x: set<nat>) {
    s.refused <= t.refused && Spares(s, t, x) && (s.refused == t.refused ==> Spares(s, t, {}))
  }

  lemma OnFailureTrans(s: Loop, t: Loop, u: Loop, x: set<nat>, y: set<nat>)
    requires OnFailure(s, t, x) && OnFailure(t, u, y) && y <= x
    ensures OnFailure(s, u, x)
  {
    if u.refused == s.refused { SparesTrans(s, t, u, {}, {}); }
    SparesTrans(s, t, u, x, y);
  }

  lemma SameLiveSpares(s: Loop, t: Loop, x: set<nat>)
    requires |t.conns| == |s.conns| && LiveSet(t.conns) == LiveSet(s.conns)
    ensures Spares(s, t, x) && (s.refused <= t.refused ==> OnFailure(s, t, x))
  {
    forall i: nat | Live(s, i)
      ensures Live(t, i)
    {
      assert i in LiveSet(s.conns);
    }
  }

  lemma ThenCircle(s: Loop, t: Loop, u: Loop, c: nat)
    requires Evolves(s, t) && Spares(s, t, Circle(s, c)) && Spares(t, u, Circle(t, c))
    ensures Spares(s, u, Circle(s, c))
  {
    CircleShrinks(s, t, c);
    SparesTrans(s, t, u, Circle(s, c), Circle(t, c));
  }

  lemma QuietTrans(s: Loop, t: Loop, u: Loop, x: set<nat>)
    requires Evolves(s, t) && Evolves(t, u) && Quiet(s, t, x) && Quiet(t, u, x)
    ensures Quiet(s, u, x)
  {
    forall i | 0 <= i < |s.conns| && i !in x && Live(u, i) && s.conns[i].room.None?
      ensures Stream(u, i) == Stream(s, i)
    {
      assert ConnEvolves(s.conns[i], t.conns[i]) && ConnEvolves(t.conns[i], u.conns[i]);
    }
  }

  lemma SettlesTrans(s: Loop, t: Loop, u: Loop)
    requires Settles(s, t) && Settles(t, u)
    ensures Settles(s, u)
  {
    EvolvesTrans(s, t, u);
    QuietTrans(s, t, u, {});
  }

  lemma UnblockedQuiet(s: Loop, c: nat, d: Conn, delta: int)
    requires c < |s.conns| && Drains(s.conns[c], d)
    ensures Quiet(s, Unblocked(s, c, d, delta), {})
  {
    PausedTouched(Revised(s, c, d, delta), c, false);
  }

  /** What was sent to a connection does not matter once it is dead. */
  lemma QuietDead(s: Loop, t: Loop, x: set<nat>)
    requires Quiet(s, t, x) && forall i :: i in x ==> !Live(t, i)
    ensures Quiet(s, t, {})
  {}

  /** ... nor if it is in a room. */
  lemma QuietRoom(s: Loop, t: Loop, x: nat)
    requires Quiet(s, t, {x}) && x < |s.conns| && s.conns[x].room.Some?
    ensures Quiet(s, t, {})
  {}

  lemma QuietNoneTold(s: Loop, t: Loop, x: set<nat>, moving: set<nat>)
    requires Stages(s, moving) && Quiet(s, t, x)
    requires forall i :: i in x && i < |s.conns| ==> i in moving || !Live(t, i) || !Waits(s.conns[i])
    ensures NoneTold(s, t, moving)
  {
    forall i | 0 <= i < |s.conns| && i !in moving && Live(t, i) && Waits(s.conns[i])
      ensures Stream(t, i) == Stream(s, i)
    {
      assert StageOk(s, i);
    }
  }

  /** A send from a state between two steps leads to another one, if the receiver is in a room
      or a match, or being moved. */
  lemma QuietWorking(s: Loop, t: Loop, x: set<nat>, moving: set<nat>)
    requires Working(s, moving) && Evolves(s, t) && Quiet(s, t, x)
    requires forall i :: i in x ==> Tellable(s, i, moving)
    requires Inv(t) && t.closing == s.closing && t.tearing == s.tearing
    ensures Working(t, moving)
  {
    QuietNoneTold(s, t, x, moving);
    EvolvesWorking(s, t, moving);
  }

  /** Nobody is told anything while it waits, unless it is being moved. */
  ghost predicate Tellable(s: Loop, c: nat, moving: set<nat>) {
    c < |s.conns| && (c in moving || !Waits(s.conns[c]))
  }

  /** Closing tells nobody anything who waits. */
  lemma SettlesStages(s: Loop, t: Loop, moving: set<nat>)
    requires Stages(s, moving) && Settles(s, t)
    ensures Stages(t, moving)
  {
    QuietNoneTold(s, t, {}, moving);
    EvolvesStages(s, t, moving);
  }

  lemma SettlesWorking(s: Loop, t: Loop, moving: set<nat>)
    requires Working(s, moving) && Settles(s, t)
    requires Inv(t) && t.closing == s.closing && t.tearing == s.tearing
    ensures Working(t, moving)
  {
    SettlesStages(s, t, moving);
  }

  lemma PeerWorking(s: Loop, t: Loop, peer: Option<nat>, moving: set<nat>)
    requires Working(s, moving) && Evolves(s, t) && Quiet(s, t, Only(peer)) && TellablePeer(s, peer, moving)
    requires Inv(t) && t.closing == s.closing && t.tearing == s.tearing
    ensures Working(t, moving) && Sends(s, t, peer)
  {
    QuietWorking(s, t, Only(peer), moving);
  }

  ghost predicate TellablePeer(s: Loop, peer: Option<nat>, moving: set<nat>) {
    peer.Some? ==> Tellable(s, peer.value, moving)
  }

  lemma DriftsTellable(s: Loop, t: Loop, peer: Option<nat>, moving: set<nat>)
    requires Drifts(s, t) && TellablePeer(s, peer, moving)
    ensures TellablePeer(t, peer, moving)
  {
    if peer.Some? { assert ConnEvolves(s.conns[peer.value], t.conns[peer.value]); }
  }

  lemma StaysTellable(s: Loop, t: Loop, c: nat, moving: set<nat>)
    requires Evolves(s, t) && Tellable(s, c, moving)
    ensures Tellable(t, c, moving)
  {
    assert ConnEvolves(s.conns[c], t.conns[c]);
  }

  lemma PlacedIsTellable(s: Loop, c: nat, moving: set<nat>)
    requires Stages(s, moving) && c < |s.conns| && (s.conns[c].room.Some? || s.conns[c].ch.Some?)
    ensures Tellable(s, c, moving)
  {
    if c !in moving { assert StageOk(s, c); }
  }

  /** Nobody waits who is somebody's opponent. */
  lemma OpponentIsMatched(s: Loop, c: nat)
    requires Links(s) && Stages(s, {}) && Live(s, c)
    ensures TellablePeer(s, Opponent(s, c), {})
  {
    if Opponent(s, c).Some? {
      assert ConnLinked(s, c) && SideLinked(s, s.conns[c].ch.value, !s.conns[c].isA);
      assert StageOk(s, Opponent(s, c).value);
    }
  }

  // ---------------------------------------------------------------- records that stay in place

  ghost predicate ChanDrifts(c: Channel, d: Channel) {
    d.ranked == c.ranked && (d.a == c.a || d.a == None) && (d.b == c.b || d.b == None)
  }

  /** Connections die or stay as they are, sides of matches are at most vacated: what Evolves
      says, and accounts may be taken as well. */
  ghost predicate Drifts(s: Loop, t: Loop) {
    |t.conns| == |s.conns| && |t.chanAt| == |s.chanAt| && s.refused <= t.refused &&
    (forall i :: 0 <= i < |s.conns| ==> ConnEvolves(s.conns[i], t.conns[i])) &&
    (forall k :: 0 <= k < |s.chanAt| ==> ChanDrifts(s.chanAt[k], t.chanAt[k]))
  }

  lemma EvolvesDrifts(s: Loop, t: Loop)
    requires Evolves(s, t)
    ensures Drifts(s, t)
  {
    forall k | 0 <= k < |s.chanAt|
      ensures ChanDrifts(s.chanAt[k], t.chanAt[k])
    {
      assert ChanEvolves(s.chanAt[k], t.chanAt[k]);
    }
  }

  lemma DriftsTrans(s: Loop, t: Loop, u: Loop)
    requires Drifts(s, t) && Drifts(t, u)
    ensures Drifts(s, u)
  {
    forall i | 0 <= i < |s.conns|
      ensures ConnEvolves(s.conns[i], u.conns[i])
    {
      ConnEvolvesTrans(s.conns[i], t.conns[i], u.conns[i]);
    }
    forall k | 0 <= k < |s.chanAt|
      ensures ChanDrifts(s.chanAt[k], u.chanAt[k])
    {
      assert ChanDrifts(s.chanAt[k], t.chanAt[k]) && ChanDrifts(t.chanAt[k], u.chanAt[k]);
    }
  }

  lemma DriftsCalm(s: Loop, t: Loop)
    requires Drifts(s, t)
    ensures Calm(s, t)
  {
    forall i | 0 <= i < |s.conns| && t.conns[i].stage != Dead
      ensures SameLinks(s.conns[i], t.conns[i])
    {
      assert ConnEvolves(s.conns[i], t.conns[i]);
    }
    forall k | 0 <= k < |s.chanAt|
      ensures (t.chanAt[k].a == s.chanAt[k].a || t.chanAt[k].a == None) &&
              (t.chanAt[k].b == s.chanAt[k].b || t.chanAt[k].b == None)
    {
      assert ChanDrifts(s.chanAt[k], t.chanAt[k]);
    }
  }

  /** Two opponents' circle is the two of them, and only gets smaller. */
  lemma OpponentCircle(s: Loop, t: Loop, c: nat, peer: Option<nat>)
    requires Links(s) && Links(t) && Drifts(s, t) && Live(s, c) && s.conns[c].ch.Some? && Opponent(s, c) == peer
    ensures Circle(t, c) <= Circle(s, c) && CircleOf(t, peer) <= Circle(s, c)
  {
    var k := s.conns[c].ch.value;
    assert ConnLinked(s, c) && ConnEvolves(s.conns[c], t.conns[c]) && ChanDrifts(s.chanAt[k], t.chanAt[k]);
    if peer.Some? {
      assert SideLinked(s, k, !s.conns[c].isA) && ConnLinked(s, peer.value);
      assert ConnEvolves(s.conns[peer.value], t.conns[peer.value]);
    }
  }

  lemma OpponentsCircle(s: Loop, a: nat, b: nat)
    requires Links(s) && Live(s, a) && Opponent(s, a) == Some(b)
    ensures Circle(s, a) <= {a, b}
  {
    assert ConnLinked(s, a);
  }

  /** The occupants of a room. */
  function Rooming(s: Loop, r: nat): set<nat>
    requires r < |s.roomAt|
  {
    Only(s.roomAt[r].host) + Only(s.roomAt[r].guest)
  }

  lemma RoomCircle(s: Loop, c: nat, r: nat)
    requires Links(s) && r < |s.roomAt| && Live(s, c) && s.conns[c].room == Some(r)
    ensures Circle(s, c) == Rooming(s, r)
  {
    assert ConnLinked(s, c);
  }

  lemma SlotCircle(s: Loop, r: nat, host: bool)
    requires Links(s) && r < |s.roomAt|
    ensures CircleOf(s, Slot(s.roomAt[r], host)) <= Rooming(s, r)
  {
    if Slot(s.roomAt[r], host).Some? {
      assert SlotLinked(s, r, host);
      RoomCircle(s, Slot(s.roomAt[r], host).value, r);
    }
  }

  /** On the way from s to t room r was at most vacated, and only over failed sends. */
  ghost predicate Passing(s: Loop, t: Loop, r: nat) {
    r < |s.roomAt| && r < |t.roomAt| && Rooming(t, r) <= Rooming(s, r) && OnFailure(s, t, Rooming(s, r))
  }

  lemma PassingTrans(s: Loop, t: Loop, u: Loop, r: nat)
    requires Passing(s, t, r) && Passing(t, u, r)
    ensures Passing(s, u, r)
  {
    OnFailureTrans(s, t, u, Rooming(s, r), Rooming(t, r));
  }

  lemma PassingSaid(s: Loop, t: Loop, r: nat, host: bool)
    requires Links(s) && Evolves(s, t) && r < |s.roomAt| && Spares(s, t, CircleOf(s, Slot(s.roomAt[r], host)))
    requires s.refused < t.refused || LiveSet(t.conns) == LiveSet(s.conns)
    ensures Passing(s, t, r)
  {
    assert RoomEvolves(s.roomAt[r], t.roomAt[r]);
    SlotCircle(s, r, host);
    if LiveSet(t.conns) == LiveSet(s.conns) { SameLiveSpares(s, t, Rooming(s, r)); }
  }

  lemma CalmCircle(s: Loop, t: Loop, c: nat)
    requires Links(s) && Calm(s, t) && (Live(s, c) ==> s.conns[c].ch.Some?)
    ensures Circle(t, c) <= Circle(s, c)
  {
    if Live(t, c) { assert SameLinks(s.conns[c], t.conns[c]) && ConnLinked(s, c); }
  }

  /** The sides of a match are a player and its opponent. */
  lemma SidesCircle(s: Loop, t: Loop, c: nat, k: nat)
    requires Links(s) && Live(s, c) && s.conns[c].ch == Some(k) && k < |s.chanAt| && |t.chanAt| == |s.chanAt|
    requires ChanDrifts(s.chanAt[k], t.chanAt[k])
    ensures Sides(t, k) <= Circle(s, c)
  {
    assert ConnLinked(s, c);
  }

  lemma PlayersCircle(s: Loop, k: nat, i: nat)
    requires k < |s.chanAt| && (Live(s, i) ==> s.conns[i].ch == Some(k) && s.conns[i].room.None?)
    ensures Circle(s, i) <= Sides(s, k) + {i}
  {}

  /** A connection on the path was on it, with the same opponent, who is in no room. */
  lemma DriftsOnPath(s: Loop, t: Loop, i: nat)
    requires Links(s) && Links(t) && Drifts(s, t) && OnPath(t, i)
    ensures OnPath(s, i) && Opponent(s, i) == Opponent(t, i) && InRanked(s, i) == InRanked(t, i)
    ensures PathStage(t.conns[i]) == PathStage(s.conns[i]) && t.conns[i].rx == s.conns[i].rx
    ensures t.conns[i].got == s.conns[i].got
    ensures Opponent(s, i).Some? ==> Live(s, Opponent(s, i).value) && s.conns[Opponent(s, i).value].room.None?
  {
    assert ConnEvolves(s.conns[i], t.conns[i]) && ConnLinked(s, i) && ConnLinked(t, i);
    if s.conns[i].ch.Some? {
      var k := s.conns[i].ch.value;
      assert ChanDrifts(s.chanAt[k], t.chanAt[k]);
      assert SideLinked(s, k, !s.conns[i].isA);
      assert ConnLinked(s, Opponent(s, i).value);
    }
  }

  /** Where nothing was sent to its opponent, a view stays. */
  lemma QuietStays(s: Loop, t: Loop, x: set<nat>, i: nat)
    requires Links(s) && Links(t) && Drifts(s, t) && Quiet(s, t, x)
    requires i < |s.conns| && Opponent(s, i).Some? ==> Opponent(s, i).value !in x || !Live(t, Opponent(s, i).value)
    ensures Stays(s, t, i)
  {
    if OnPath(t, i) {
      DriftsOnPath(s, t, i);
    }
  }

  lemma SettlesStays(s: Loop, t: Loop)
    requires Links(s) && Links(t) && Drifts(s, t) && Quiet(s, t, {})
    ensures forall i: nat :: Stays(s, t, i)
  {
    forall i: nat
      ensures Stays(s, t, i)
    {
      QuietStays(s, t, {}, i);
    }
  }

  lemma SettlesFollows(s: Loop, t: Loop)
    requires Links(s) && Links(t) && Drifts(s, t) && Quiet(s, t, {})
    ensures Follows(s, t)
  {
    SettlesStays(s, t);
    forall i: nat
      ensures P.Reaches(View(s, i), View(t, i))
    {
      StaysReaches(s, t, i);
    }
  }

  lemma SettledFollows(s: Loop, t: Loop)
    requires Inv(s) && Inv(t) && Settles(s, t)
    ensures Follows(s, t)
  {
    EvolvesDrifts(s, t);
    SettlesFollows(s, t);
  }

  /** A successful send is seen by those whose opponent got it, and by nobody else. */
  lemma SentStays(s: Loop, t: Loop, p: Option<nat>, data: seq<byte>, i: nat)
    requires Links(s) && Links(t) && Drifts(s, t) && Sent(s, t, p, data)
    requires i < |s.conns| ==> p.None? || Opponent(s, i) != p
    ensures Stays(s, t, i)
  {
    if OnPath(t, i) {
      DriftsOnPath(s, t, i);
    }
  }

  lemma SentSeen(s: Loop, t: Loop, p: Option<nat>, data: seq<byte>, i: nat)
    requires Links(s) && Links(t) && Drifts(s, t) && Sent(s, t, p, data)
    requires i < |s.conns| && p.Some? && Opponent(s, i) == p
    ensures View(t, i) == View(s, i).(sent := View(s, i).sent + data) || View(t, i) == P.Gone
  {
    if OnPath(t, i) {
      DriftsOnPath(s, t, i);
    }
  }

  lemma SentQuiet(s: Loop, t: Loop, p: Option<nat>, data: seq<byte>)
    requires Sent(s, t, p, data)
    ensures Quiet(s, t, Only(p))
  {}

  /** The opponents of a match are each other's. */
  lemma OpponentOf(s: Loop, i: nat, j: nat)
    requires Links(s) && Live(s, i) && Live(s, j) && Opponent(s, i).Some? && Opponent(s, i) == Opponent(s, j)
    ensures i == j
  {
    assert ConnLinked(s, i) && ConnLinked(s, j);
    assert SideLinked(s, s.conns[i].ch.value, !s.conns[i].isA);
    assert SideLinked(s, s.conns[j].ch.value, !s.conns[j].isA);
  }

  // ---------------------------------------------------------------- one connection's record rewritten

  /** Others see nothing of it. */
  lemma RewrittenStays(s: Loop, c: nat, d: Conn, i: nat)
    requires c < |s.conns| && SameLinks(s.conns[c], d) && d.sent == s.conns[c].sent && d.tx == s.conns[c].tx && i != c
    ensures View(Revised(s, c, d, 0), i) == View(s, i)
  {}

  lemma RewrittenView(s: Loop, c: nat, d: Conn)
    requires c < |s.conns| && SameLinks(s.conns[c], d) && d.sent == s.conns[c].sent && d.tx == s.conns[c].tx
    requires d.intent == s.conns[c].intent
    ensures View(Revised(s, c, d, 0), c) ==
            if OnPath(s, c) then P.Link(PathStage(d), d.rx, Shown(s, c), InRanked(s, c), d.got) else P.Gone
  {}

  lemma RefilledView(s: Loop, c: nat, d: Conn)
    requires c < |s.conns| && d == s.conns[c].(rx := d.rx)
    ensures View(Revised(s, c, d, 0), c) == if OnPath(s, c) then View(s, c).(rx := d.rx) else P.Gone
  {
    RewrittenView(s, c, d);
  }

  /** Decisions about matches are not seen. */
  lemma SameSidesView(s: Loop, t: Loop, i: nat)
    requires t.conns == s.conns && |t.chanAt| == |s.chanAt|
    requires forall k :: 0 <= k < |s.chanAt| ==>
               t.chanAt[k].a == s.chanAt[k].a && t.chanAt[k].b == s.chanAt[k].b &&
               t.chanAt[k].ranked == s.chanAt[k].ranked
    ensures View(t, i) == View(s, i)
  {}

  // ---------------------------------------------------------------- forwarding

  /** A send to peer went wrong, or something did over it. */
  ghost predicate Fails(s: Loop, t: Loop, peer: Option<nat>) { Drifts(s, t) && Quiet(s, t, Only(peer)) }

  lemma ScreenedSteady(s: Loop, t: Loop, c: nat, peer: Option<nat>)
    requires Steady(s) && Inv(t) && Evolves(s, t) && t.closing == s.closing && t.tearing == s.tearing
    requires Live(s, c) && s.conns[c].ch.Some? && Opponent(s, c) == peer
    requires Quiet(s, t, Only(peer)) && Spares(s, t, CircleOf(s, peer))
    ensures Steady(t) && Calm(s, t) && Fails(s, t, peer) && Spares(s, t, Circle(s, c))
  {
    OpponentIsMatched(s, c);
    PeerWorking(s, t, peer, {});
    EvolvesCalm(s, t);
    EvolvesDrifts(s, t);
    OpponentCircle(s, s, c, peer) by { EvolvesDrifts(s, s) by { EvolvesRefl(s); } }
  }

  /** c's bytes went to its opponent and what is left of them is kept: c's view, and only c's,
      is one of QueuePath's forwarding steps further. */
  lemma ForwardMoves(s: Loop, t: Loop, c: nat, peer: Option<nat>, d: Conn)
    requires Links(s) && Links(t) && Drifts(s, t) && Live(t, c) && c < |s.conns| && Opponent(s, c) == peer
    requires Sent(s, t, peer, Out(InRanked(s, c), s.conns[c].rx))
    requires d == t.conns[c].(rx := Left(s.conns[c].rx))
    ensures Moves(s, Revised(t, c, d, 0), c, P.OnForward(View(s, c)))
  {
    var u := Revised(t, c, d, 0);
    forall i: nat | i != c
      ensures Stays(s, u, i)
    {
      RewrittenStays(t, c, d, i);
      OthersStay(s, t, c, peer, i);
    }
    RefilledView(t, c, d);
    ForwardedView(s, t, c, peer);
    P.ReachesSelf(P.OnForward(View(s, c)));
  }

  lemma OthersStay(s: Loop, t: Loop, c: nat, peer: Option<nat>, i: nat)
    requires Links(s) && Links(t) && Drifts(s, t) && Live(t, c) && c < |s.conns| && Opponent(s, c) == peer && i != c
    requires Sent(s, t, peer, Out(InRanked(s, c), s.conns[c].rx))
    ensures Stays(s, t, i)
  {
    if OnPath(t, i) {
      DriftsOnPath(s, t, i);
      assert ConnEvolves(s.conns[c], t.conns[c]);
      if peer.Some? && Opponent(s, i) == peer { OpponentOf(s, i, c); }
      SentStays(s, t, peer, Out(InRanked(s, c), s.conns[c].rx), i);
    }
  }

  lemma ForwardedView(s: Loop, t: Loop, c: nat, peer: Option<nat>)
    requires Links(s) && Links(t) && Drifts(s, t) && Live(t, c) && c < |s.conns| && Opponent(s, c) == peer
    requires Sent(s, t, peer, Out(InRanked(s, c), s.conns[c].rx))
    ensures OnPath(t, c) ==> OnPath(s, c) && View(t, c).(rx := Left(s.conns[c].rx)) == P.OnForward(View(s, c))
  {
    if OnPath(t, c) {
      DriftsOnPath(s, t, c);
      if peer.Some? {
        SentSeen(s, t, peer, Out(InRanked(s, c), s.conns[c].rx), c);
      } else {
        assert Out(InRanked(s, c), s.conns[c].rx) == [];
        assert View(s, c).sent + [] == View(s, c).sent;
      }
    }
  }

  /** When a send to c's opponent went wrong, and the opponent, or c itself without one, is
      closed, c is off the path and everybody else stays. */
  lemma FailedMoves(s: Loop, t: Loop, c: nat, peer: Option<nat>, l: P.Link)
    requires Links(s) && Links(t) && Fails(s, t, peer) && Live(s, c) && Opponent(s, c) == peer
    requires !Live(t, if peer.Some? then peer.value else c)
    ensures Moves(s, t, c, l)
  {
    if OnPath(t, c) { DriftsOnPath(s, t, c); }
    forall i: nat | i != c
      ensures Stays(s, t, i)
    {
      QuietStays(s, t, Only(peer), i);
    }
  }

  lemma FailsEvolves(s: Loop, t: Loop, u: Loop, peer: Option<nat>)
    requires Fails(s, t, peer) && Evolves(t, u) && Quiet(t, u, Only(peer))
    ensures Fails(s, u, peer)
  {
    EvolvesDrifts(t, u);
    DriftsTrans(s, t, u);
    forall i | 0 <= i < |s.conns| && i !in Only(peer) && Live(u, i) && s.conns[i].room.None?
      ensures Stream(u, i) == Stream(s, i)
    {
      assert ConnEvolves(s.conns[i], t.conns[i]) && ConnEvolves(t.conns[i], u.conns[i]);
    }
  }

  lemma FailsThen(s: Loop, t: Loop, u: Loop, peer: Option<nat>)
    requires Fails(s, t, peer) && Settles(t, u)
    ensures Fails(s, u, peer)
  {
    FailsEvolves(s, t, u, peer);
  }

  /** Views that stay after a move have moved as well. */
  lemma MovesThen(s: Loop, t: Loop, u: Loop, c: nat, l: P.Link)
    requires Moves(s, t, c, l) && forall i: nat :: Stays(t, u, i)
    ensures Moves(s, u, c, l)
  {
    StaysReaches(t, u, c);
    P.ReachesTrans(l, View(t, c), View(u, c));
    forall i: nat | i != c
      ensures Stays(s, u, i)
    {
      assert Stays(s, t, i) && Stays(t, u, i);
    }
  }

  /** c is gone; only its opponent was sent anything. */
  lemma ClosedMoves(s: Loop, t: Loop, c: nat, peer: Option<nat>, l: P.Link)
    requires Links(s) && Links(t) && Fails(s, t, peer) && Live(s, c) && Opponent(s, c) == peer && !Live(t, c)
    ensures Moves(s, t, c, l)
  {
    forall i: nat | i != c
      ensures Stays(s, t, i)
    {
      if OnPath(t, i) {
        DriftsOnPath(s, t, i);
        if peer.Some? && Opponent(s, i) == peer { OpponentOf(s, i, c); }
        QuietStays(s, t, Only(peer), i);
      }
    }
  }

  // ---------------------------------------------------------------- entering the forwarding stage

  /** Ready, and in the lobby, forwarding already, or not from the queue at all. */
  ghost predicate Startable(s: Loop, i: nat) {
    Live(s, i) && Means(s, i) &&
    (s.conns[i].intent == ToQueue ==> s.conns[i].stage in {InLobby, Forwarding}) && s.conns[i].stage != FirstFrame
  }

  function Lifted(l: P.Link): P.Link { if l.stage == P.AtClosed then l else l.(stage := P.AtForward) }

  lemma StagedOthers(s: Loop, c: nat, st: Stage, i: nat)
    requires Live(s, c) && st != Dead && i != c
    ensures View(Staged(s, c, st), i) == View(s, i)
  {}

  lemma LiftedView(s: Loop, c: nat)
    requires Startable(s, c)
    ensures View(Staged(s, c, Forwarding), c) == Lifted(View(s, c))
  {}

  lemma BothLifted(s: Loop, a: nat, b: nat, i: nat)
    requires Startable(s, a) && Startable(s, b) && a != b
    ensures View(Staged(Staged(s, a, Forwarding), b, Forwarding), i) ==
            if i == a || i == b then Lifted(View(s, i)) else View(s, i)
  {
    var t := Staged(s, a, Forwarding);
    if i == b {
      StagedOthers(s, a, Forwarding, b);
      LiftedView(t, b);
    } else {
      StagedOthers(t, b, Forwarding, i);
      if i == a { LiftedView(s, a); } else { StagedOthers(s, a, Forwarding, i); }
    }
  }

  /** May start: ready, started already, or off the path. */
  predicate Begun(l: P.Link) { l == P.Gone || l.stage == P.AtLobbyReady || l.stage == P.AtForward }

  ghost predicate LiftedViews(s: Loop, t: Loop, a: nat, b: nat) {
    Begun(View(s, a)) && Begun(View(s, b)) &&
    forall i: nat :: View(t, i) == if i == a || i == b then Lifted(View(s, i)) else View(s, i)
  }

  lemma StagedLifts(s: Loop, a: nat, b: nat)
    requires Startable(s, a) && Startable(s, b) && a != b
    ensures LiftedViews(s, Staged(Staged(s, a, Forwarding), b, Forwarding), a, b)
  {
    forall i: nat
      ensures View(Staged(Staged(s, a, Forwarding), b, Forwarding), i) ==
              if i == a || i == b then Lifted(View(s, i)) else View(s, i)
    {
      BothLifted(s, a, b, i);
    }
  }

  /** What two flushes in a row make of two connections that have just started. */
  lemma BothStarted(s: Loop, t: Loop, u: Loop, v: Loop, a: nat, b: nat)
    requires a != b && LiftedViews(s, t, a, b)
    requires Moves(t, u, a, P.OnForward(View(t, a))) && Moves(u, v, b, P.OnForward(View(u, b)))
    ensures Reads2(s, v, a, P.Step(View(s, a), P.Started), b, P.Step(View(s, b), P.Started))
  {
    assert View(t, a) == Lifted(View(s, a)) && View(t, b) == Lifted(View(s, b));
    assert Stays(u, v, a) && Stays(t, u, b);
    FlushedFirst(View(s, a), View(u, a), View(v, a));
    FlushedSecond(View(s, b), View(t, b), View(u, b), View(v, b));
    forall i: nat | i != a && i != b
      ensures P.Reaches(View(s, i), View(v, i))
    {
      OtherStarted(s, t, u, v, i);
    }
  }

  lemma OtherStarted(s: Loop, t: Loop, u: Loop, v: Loop, i: nat)
    requires View(t, i) == View(s, i) && Stays(t, u, i) && Stays(u, v, i)
    ensures P.Reaches(View(s, i), View(v, i))
  {
    P.ReachesSelf(View(s, i));
  }

  lemma FlushedFirst(l: P.Link, m: P.Link, n: P.Link)
    requires Begun(l) && P.Reaches(P.OnForward(Lifted(l)), m) && (n == m || n == P.Gone)
    ensures P.Reaches(P.Step(l, P.Started), n)
  {
    StartedLink(l);
  }

  lemma FlushedSecond(l: P.Link, k: P.Link, m: P.Link, n: P.Link)
    requires Begun(l) && k == Lifted(l) && (m == k || m == P.Gone) && P.Reaches(P.OnForward(m), n)
    ensures P.Reaches(P.Step(l, P.Started), n)
  {
    StartedLink(l);
    if m == P.Gone {
      P.NothingToRead(m);
      P.FromClosed(P.OnForward(m), n);
    }
  }

  lemma StartedLink(l: P.Link)
    requires l == P.Gone || l.stage == P.AtLobbyReady || l.stage == P.AtForward
    ensures P.OnForward(Lifted(l)) == P.Step(l, P.Started)
  {
    if l == P.Gone { P.NothingToRead(l); }
  }

  lemma StartedFollows(s: Loop, t: Loop, a: nat, b: nat)
    requires Reads2(s, t, a, P.Step(View(s, a), P.Started), b, P.Step(View(s, b), P.Started))
    ensures Follows(s, t)
  {
    P.ReachesStep(View(s, a), P.Started);
    P.ReachesStep(View(s, b), P.Started);
    P.ReachesTrans(View(s, a), P.Step(View(s, a), P.Started), View(t, a));
    P.ReachesTrans(View(s, b), P.Step(View(s, b), P.Started), View(t, b));
  }

  /** Nothing to flush. */
  lemma EmptyMoves(s: Loop, c: nat)
    requires Live(s, c) ==> s.conns[c].rx == []
    ensures Moves(s, s, c, P.OnForward(View(s, c)))
  {
    P.NothingToRead(View(s, c));
    P.ReachesSelf(View(s, c));
  }

  // ---------------------------------------------------------------- the lobby

  /** Whoever is alive is in the match it was in. */
  ghost predicate SameMatch(s: Loop, t: Loop) {
    |t.conns| == |s.conns| &&
    forall i :: 0 <= i < |s.conns| && t.conns[i].stage != Dead ==>
      s.conns[i].stage != Dead && t.conns[i].ch == s.conns[i].ch && t.conns[i].isA == s.conns[i].isA
  }

  lemma MatchTrans(s: Loop, t: Loop, u: Loop)
    requires SameMatch(s, t) && SameMatch(t, u)
    ensures SameMatch(s, u)
  {}

  lemma CalmSameMatch(s: Loop, t: Loop)
    requires Calm(s, t)
    ensures SameMatch(s, t)
  {}

  lemma StagedMatch(s: Loop, c: nat, st: Stage)
    requires Live(s, c)
    ensures SameMatch(s, Staged(s, c, st))
  {}

  /** Everybody but c dies or stays as it is, c is at most closed, and sides of matches are at
      most vacated. */
  ghost predicate Apart(s: Loop, t: Loop, c: nat) {
    |t.conns| == |s.conns| && |t.chanAt| == |s.chanAt| && SameMatch(s, t) &&
    (forall i :: 0 <= i < |s.conns| && i != c ==> ConnEvolves(s.conns[i], t.conns[i])) &&
    (forall k :: 0 <= k < |s.chanAt| ==> ChanDrifts(s.chanAt[k], t.chanAt[k]))
  }

  /** c has no opponent who is ready. */
  ghost predicate PeerWaits(s: Loop, c: nat)
    requires c < |s.conns|
  {
    Opponent(s, c).Some? && Opponent(s, c).value < |s.conns| ==> !s.conns[Opponent(s, c).value].ready
  }

  ghost predicate BothReady(s: Loop, k: nat)
    requires k < |s.chanAt|
  {
    s.chanAt[k].a.Some? && s.chanAt[k].b.Some? &&
    s.chanAt[k].a.value < |s.conns| && s.conns[s.chanAt[k].a.value].ready &&
    s.chanAt[k].b.value < |s.conns| && s.conns[s.chanAt[k].b.value].ready
  }

  lemma OpponentIsOther(s: Loop, c: nat)
    requires Links(s) && Live(s, c)
    ensures Opponent(s, c).Some? ==> Live(s, Opponent(s, c).value) && Opponent(s, c).value != c
  {
    assert ConnLinked(s, c);
    if Opponent(s, c).Some? { assert SideLinked(s, s.conns[c].ch.value, !s.conns[c].isA); }
  }

  /** As long as only c has decided, an opponent who was not ready is not. */
  lemma StillWaits(s: Loop, t: Loop, c: nat, k: nat)
    requires Links(s) && Links(t) && Live(s, c) && s.conns[c].ch == Some(k) && k < |s.chanAt|
    requires Apart(s, t, c) && PeerWaits(s, c)
    ensures !BothReady(t, k)
  {
    OpponentIsOther(s, c);
    assert ChanDrifts(s.chanAt[k], t.chanAt[k]);
    assert SideLinked(t, k, true) && SideLinked(t, k, false);
    var peer := Opponent(s, c);
    if peer.Some? { assert ConnEvolves(s.conns[peer.value], t.conns[peer.value]); }
  }

  lemma ApartEvolves(s: Loop, t: Loop, u: Loop, c: nat)
    requires Apart(s, t, c) && Evolves(t, u)
    ensures Apart(s, u, c)
  {
    assert SameMatch(s, u) by { MatchEvolves(s, t, u); }
    forall i | 0 <= i < |s.conns| && i != c
      ensures ConnEvolves(s.conns[i], u.conns[i])
    {
      ConnEvolvesTrans(s.conns[i], t.conns[i], u.conns[i]);
    }
    forall k | 0 <= k < |s.chanAt|
      ensures ChanDrifts(s.chanAt[k], u.chanAt[k])
    {
      assert ChanDrifts(s.chanAt[k], t.chanAt[k]) && ChanEvolves(t.chanAt[k], u.chanAt[k]);
    }
  }

  lemma MatchEvolves(s: Loop, t: Loop, u: Loop)
    requires SameMatch(s, t) && Evolves(t, u)
    ensures SameMatch(s, u)
  {
    forall i | 0 <= i < |s.conns| && u.conns[i].stage != Dead
      ensures s.conns[i].stage != Dead && u.conns[i].ch == s.conns[i].ch && u.conns[i].isA == s.conns[i].isA
    {
      assert ConnEvolves(t.conns[i], u.conns[i]);
    }
  }

  lemma EvolvesApart(s: Loop, t: Loop, c: nat)
    requires Evolves(s, t)
    ensures Apart(s, t, c)
  {
    EvolvesCalm(s, t);
    EvolvesDrifts(s, t);
  }

  lemma RevisedApart(s: Loop, c: nat, d: Conn)
    requires c < |s.conns| && SameLinks(s.conns[c], d)
    ensures Apart(s, Revised(s, c, d, 0), c)
  {}

  /** After a step nobody but c sees. */
  lemma AfterOwn(s: Loop, t: Loop, u: Loop, c: nat, l: P.Link)
    requires (forall i: nat :: i != c ==> View(t, i) == View(s, i)) && Moves(t, u, c, l)
    ensures Moves(s, u, c, l)
  {
    forall i: nat | i != c
      ensures Stays(s, u, i)
    {
      assert Stays(t, u, i);
    }
  }

  lemma RewrittenOthers(s: Loop, c: nat, d: Conn)
    requires c < |s.conns| && SameLinks(s.conns[c], d) && d.sent == s.conns[c].sent && d.tx == s.conns[c].tx
    ensures forall i: nat :: i != c ==> View(Revised(s, c, d, 0), i) == View(s, i)
  {
    forall i: nat | i != c
      ensures View(Revised(s, c, d, 0), i) == View(s, i)
    {
      RewrittenStays(s, c, d, i);
    }
  }

  /** Still undecided: only the buffer is shorter. */
  lemma UndecidedMoves(s: Loop, c: nat, d: Conn)
    requires Live(s, c) && ReadLobby(s.conns[c].rx).Undecided? && d == s.conns[c].(rx := ReadLobby(s.conns[c].rx).rx)
    ensures Moves(s, Revised(s, c, d, 0), c, P.OnLobby(View(s, c)))
  {
    RewrittenOthers(s, c, d);
    RefilledView(s, c, d);
    P.ReachesSelf(P.OnLobby(View(s, c)));
  }

  /** READY(1) noted: c's view is what QueuePath's lobby makes of it, but for the READY to be
      passed on. */
  lemma AcceptedView(s: Loop, c: nat, d: Conn)
    requires Live(s, c) && s.conns[c].stage == InLobby && d == s.conns[c].(rx := d.rx, ready := true)
    ensures View(Revised(s, c, d, 0), c) ==
            if OnPath(s, c) then View(s, c).(stage := P.AtLobbyReady, rx := d.rx) else P.Gone
  {
    RewrittenView(s, c, d);
  }

  lemma AcceptedMoves(s: Loop, t: Loop, u: Loop, c: nat, peer: nat, d: Conn)
    requires Links(s) && Links(t) && Links(u) && Live(s, c) && s.conns[c].stage == InLobby && !s.conns[c].ready
    requires d == s.conns[c].(rx := d.rx, ready := true) && ReadLobby(s.conns[c].rx) == Accepted(d.rx)
    requires t == Revised(s, c, d, 0) && Opponent(t, c) == Some(peer)
    requires Evolves(t, u) && Sent(t, u, Some(peer), P.Yes())
    ensures Moves(s, u, c, P.OnLobby(View(s, c)))
  {
    AcceptedView(s, c, d);
    RewrittenOthers(s, c, d);
    EvolvesDrifts(t, u);
    PassedMoves(t, u, c, peer, P.Yes());
    PassedOnView(s, t, u, c, d);
    AfterOwn(s, t, u, c, P.OnLobby(View(s, c)));
  }

  lemma PassedOnView(s: Loop, t: Loop, u: Loop, c: nat, d: Conn)
    requires Live(s, c) && s.conns[c].stage == InLobby && !s.conns[c].ready &&
             ReadLobby(s.conns[c].rx) == Accepted(d.rx)
    requires View(t, c) == if OnPath(s, c) then View(s, c).(stage := P.AtLobbyReady, rx := d.rx) else P.Gone
    requires Moves(t, u, c, View(t, c).(sent := View(t, c).sent + P.Yes()))
    ensures Moves(t, u, c, P.OnLobby(View(s, c)))
  {
    if !OnPath(s, c) {
      P.FromClosed(View(t, c).(sent := View(t, c).sent + P.Yes()), View(u, c));
    }
  }

  /** A frame sent to c's opponent. */
  lemma PassedMoves(s: Loop, t: Loop, c: nat, peer: nat, data: seq<byte>)
    requires Links(s) && Links(t) && Drifts(s, t) && Live(s, c) && Opponent(s, c) == Some(peer)
    requires Sent(s, t, Some(peer), data)
    ensures Moves(s, t, c, View(s, c).(sent := View(s, c).sent + data))
  {
    SentSeen(s, t, Some(peer), data, c);
    P.ReachesSelf(View(s, c).(sent := View(s, c).sent + data));
    forall i: nat | i != c
      ensures Stays(s, t, i)
    {
      if OnPath(t, i) {
        DriftsOnPath(s, t, i);
        if Opponent(s, i) == Some(peer) { OpponentOf(s, i, c); }
        SentStays(s, t, Some(peer), data, i);
      }
    }
  }

  /** Off the path, whatever QueuePath makes of it. */
  lemma OffPathMoves(s: Loop, c: nat, d: Conn, l: P.Link)
    requires c < |s.conns| && SameLinks(s.conns[c], d) && d.sent == s.conns[c].sent && d.tx == s.conns[c].tx
    requires !OnPath(s, c) && d.intent == s.conns[c].intent
    ensures Moves(s, Revised(s, c, d, 0), c, l)
  {
    RewrittenOthers(s, c, d);
    RewrittenView(s, c, d);
  }

  /** Reading in the lobby: only whoever is not ready reads. */
  lemma LobbyLink(s: Loop, c: nat)
    requires Live(s, c) && s.conns[c].stage == InLobby
    ensures P.OnRead(View(s, c)) == if s.conns[c].ready then View(s, c) else P.OnLobby(View(s, c))
  {
    if !OnPath(s, c) { P.NothingToRead(P.Gone); }
  }

  /** Nothing to read, or nobody. */
  lemma EmptyLobby(s: Loop, c: nat)
    requires Live(s, c) ==> s.conns[c].stage == InLobby && s.conns[c].rx == []
    ensures Reads(s, s, c, P.OnRead(View(s, c)))
  {
    if Live(s, c) {
      LobbyLink(s, c);
      P.NothingToRead(View(s, c));
    }
    FollowsSelf(s);
  }

  lemma ReadSecond(l: P.Link, m: P.Link, n: P.Link)
    requires (m == l || m == P.Gone) && P.Reaches(P.OnRead(m), n)
    ensures P.Reaches(P.OnRead(l), n)
  {
    if m == P.Gone { P.FromClosed(P.OnRead(P.Gone), n); }
  }

  /** One after the other has read its lobby buffer; the second was not ready, so nothing
      started in between. */
  lemma BothRead(s: Loop, t: Loop, u: Loop, a: nat, b: nat)
    requires a != b && Reads(s, t, a, P.OnRead(View(s, a))) && Stays(s, t, b)
    requires Reads(t, u, b, P.OnRead(View(t, b)))
    ensures Reads2(s, u, a, P.OnRead(View(s, a)), b, P.OnRead(View(s, b)))
  {
    P.ReachesTrans(P.OnRead(View(s, a)), View(t, a), View(u, a));
    ReadSecond(View(s, b), View(t, b), View(u, b));
    forall i: nat | i != a && i != b
      ensures P.Reaches(View(s, i), View(u, i))
    {
      P.ReachesTrans(View(s, i), View(t, i), View(u, i));
    }
  }

  // ---------------------------------------------------------------- the queue

  lemma NothingStays()
    ensures StaysQueued([])
  {
    assert Parse([]) == Parsed(true, [], []);
  }

  /** Authenticated and entering the queue, with nothing in the buffer against it. */
  lemma QueuedFollows(s: Loop, c: nat)
    requires Live(s, c) && s.conns[c].stage == Auth && s.conns[c].intent == ToQueue && StaysQueued(s.conns[c].rx)
    ensures Follows(s, Staged(s, c, Queued))
  {
    var t := Staged(s, c, Queued);
    forall i: nat
      ensures P.Reaches(View(s, i), View(t, i))
    {
      if i == c {
        QueuedLink(s, c);
        P.ReachesStep(View(s, c), P.Authenticated);
      } else {
        StagedOthers(s, c, Queued, i);
        P.ReachesSelf(View(s, i));
      }
    }
  }

  lemma QueuedLink(s: Loop, c: nat)
    requires Live(s, c) && s.conns[c].stage == Auth && s.conns[c].intent == ToQueue && StaysQueued(s.conns[c].rx)
    ensures View(Staged(s, c, Queued), c) == P.Step(View(s, c), P.Authenticated)
  {}

  /** ... or with a cancellation, after which it is closed. */
  lemma CancelledFollows(s: Loop, c: nat, u: Loop)
    requires Live(s, c) && Links(Staged(s, c, Queued)) && Links(u) && Settles(Staged(s, c, Queued), u) && !Live(u, c)
    ensures Follows(s, u)
  {
    var t := Staged(s, c, Queued);
    EvolvesDrifts(t, u);
    SettlesStays(t, u);
    forall i: nat
      ensures P.Reaches(View(s, i), View(u, i))
    {
      if i != c {
        StagedOthers(s, c, Queued, i);
        assert Stays(t, u, i);
        StaysReaches(s, u, i);
      }
    }
  }

  /** Queue, table, ledgers and leases are not seen. */
  lemma SameConnsFollows(s: Loop, t: Loop)
    requires t.conns == s.conns && t.chanAt == s.chanAt
    ensures Follows(s, t)
  {
    forall i: nat
      ensures P.Reaches(View(s, i), View(t, i))
    {
      SameSidesView(s, t, i);
      P.ReachesSelf(View(s, i));
    }
  }

  // ---------------------------------------------------------------- pairing

  /** a's view once it has been paired with b: in the lobby, with everything b has got as what
      its opponent was told. */
  ghost predicate SeenPaired(s: Loop, t: Loop, a: nat, b: nat)
    requires a < |t.conns| && b < |t.conns|
  {
    View(t, a) == P.Gone ||
    (View(s, a).stage == P.AtQueue &&
     View(t, a) == View(s, a).(stage := P.AtLobby, ranked := InRanked(t, a), sent := Stream(t, b)))
  }

  /** In the lobby, not ready, its buffer kept, on that side of channel k against b. */
  ghost predicate Waiting(s: Loop, t: Loop, a: nat, b: nat, k: nat, isA: bool) {
    Live(t, a) && a < |s.conns| && t.conns[a].stage == InLobby && !t.conns[a].ready && t.conns[a].rx == s.conns[a].rx &&
    t.conns[a].ch == Some(k) && t.conns[a].isA == isA && Opponent(t, a) == Some(b)
  }

  /** The two stand in the lobby of a new match, nobody else is any different. */
  ghost predicate Seated(s: Loop, t: Loop, a: nat, b: nat) {
    Waiting(s, t, a, b, |s.chanAt|, true) && Waiting(s, t, b, a, |s.chanAt|, false) &&
    SeenPaired(s, t, a, b) && SeenPaired(s, t, b, a) &&
    forall i: nat :: i != a && i != b ==> Stays(s, t, i)
  }

  lemma LobbiedWaiting(s: Loop, a: nat, b: nat, ranked: bool)
    requires Links(s) && Poppable(s, a) && Poppable(s, b) && a != b
    ensures var t := Lobbied(s, a, b, ranked);
            Waiting(s, t, a, b, |s.chanAt|, true) && Waiting(s, t, b, a, |s.chanAt|, false)
  {}

  lemma LobbiedSeen(s: Loop, a: nat, b: nat, ranked: bool)
    requires Links(s) && Poppable(s, a) && Poppable(s, b) && a != b
    ensures var t := Lobbied(s, a, b, ranked);
            a < |t.conns| && b < |t.conns| && SeenPaired(s, t, a, b) && SeenPaired(s, t, b, a)
  {
    LobbiedWaiting(s, a, b, ranked);
  }

  lemma MatchedOthers(s: Loop, a: nat, b: nat, room: Option<nat>, ranked: bool, i: nat)
    requires Links(s) && Live(s, a) && Live(s, b) && a != b && (room.Some? ==> room.value < |s.roomAt|)
    requires i != a && i != b
    ensures View(Matched(s, a, b, room, ranked), i) == View(s, i)
  {
    if Live(s, i) { assert ConnLinked(s, i); }
  }

  lemma LobbiedOthers(s: Loop, a: nat, b: nat, ranked: bool, i: nat)
    requires Links(s) && Live(s, a) && Live(s, b) && a != b && i != a && i != b
    ensures View(Lobbied(s, a, b, ranked), i) == View(s, i)
  {
    var m := Matched(s, a, b, None, ranked);
    MatchedOthers(s, a, b, None, ranked, i);
    StagedOthers(m, a, InLobby, i);
    StagedOthers(Staged(m, a, InLobby), b, InLobby, i);
  }

  lemma LobbiedSeats(s: Loop, a: nat, b: nat, ranked: bool)
    requires Links(s) && Poppable(s, a) && Poppable(s, b) && a != b
    ensures Seated(s, Lobbied(s, a, b, ranked), a, b)
  {
    LobbiedWaiting(s, a, b, ranked);
    LobbiedSeen(s, a, b, ranked);
    forall i: nat | i != a && i != b
      ensures Stays(s, Lobbied(s, a, b, ranked), i)
    {
      LobbiedOthers(s, a, b, ranked, i);
    }
  }

  /** The two are told, or both are closed over it. */
  lemma ToldOthers(s: Loop, t: Loop, u: Loop, a: nat, b: nat, i: nat)
    requires Links(t) && Links(u) && Evolves(t, u) && Quiet(t, u, {a, b}) && Stays(s, t, i) && i != a && i != b
    requires a < |t.conns| && b < |t.conns| && Live(t, a) && Live(t, b)
    requires Opponent(t, a) == Some(b) && Opponent(t, b) == Some(a)
    ensures Stays(s, u, i)
  {
    EvolvesDrifts(t, u);
    if OnPath(u, i) {
      DriftsOnPath(t, u, i);
      if Opponent(t, i) == Some(b) { OpponentOf(t, i, a); }
      if Opponent(t, i) == Some(a) { OpponentOf(t, i, b); }
      QuietStays(t, u, {a, b}, i);
    }
  }

  lemma ToldSeen(s: Loop, t: Loop, u: Loop, a: nat, b: nat)
    requires Links(t) && Links(u) && Evolves(t, u) && Live(u, a) && Live(u, b) && a < |t.conns| && b < |t.conns|
    requires SeenPaired(s, t, a, b) && Opponent(t, a) == Some(b)
    ensures SeenPaired(s, u, a, b)
  {
    EvolvesDrifts(t, u);
    if OnPath(u, a) {
      DriftsOnPath(t, u, a);
    }
  }

  lemma ToldWaiting(s: Loop, t: Loop, u: Loop, a: nat, b: nat, k: nat, isA: bool)
    requires Links(t) && Links(u) && Evolves(t, u) && Live(u, a) && Live(u, b) && Waiting(s, t, a, b, k, isA)
    ensures Waiting(s, u, a, b, k, isA)
  {
    EvolvesConn(t, u, a);
    assert ConnLinked(t, a) && ConnLinked(u, a);
    EvolvesChan(t, u, k);
    EvolvesConn(t, u, b);
    assert ConnLinked(u, b) && ConnLinked(t, b) && SideLinked(t, k, !isA);
  }

  lemma ToldSeats(s: Loop, t: Loop, u: Loop, a: nat, b: nat)
    requires Seated(s, t, a, b) && Links(t) && Links(u) && Evolves(t, u) && Quiet(t, u, {a, b})
    requires Live(u, a) && Live(u, b)
    ensures Seated(s, u, a, b)
  {
    ToldWaiting(s, t, u, a, b, |s.chanAt|, true);
    ToldWaiting(s, t, u, b, a, |s.chanAt|, false);
    ToldSeen(s, t, u, a, b);
    ToldSeen(s, t, u, b, a);
    forall i: nat | i != a && i != b
      ensures Stays(s, u, i)
    {
      ToldOthers(s, t, u, a, b, i);
    }
  }

  lemma UntoldFollows(s: Loop, t: Loop, u: Loop, a: nat, b: nat)
    requires Seated(s, t, a, b) && Links(t) && Links(u) && Evolves(t, u) && Quiet(t, u, {a, b})
    requires !Live(u, a) && !Live(u, b)
    ensures Follows(s, u)
  {
    forall i: nat
      ensures P.Reaches(View(s, i), View(u, i))
    {
      if i != a && i != b {
        ToldOthers(s, t, u, a, b, i);
        StaysReaches(s, u, i);
      }
    }
  }

  /** Both have been told nothing but MATCH_FOUND, and have read their lobby buffers. */
  lemma PairedFollows(s: Loop, t: Loop, u: Loop, a: nat, b: nat)
    requires Seated(s, t, a, b) && Reads2(t, u, a, P.OnRead(View(t, a)), b, P.OnRead(View(t, b)))
    requires P.IsFound(Stream(t, a)) && P.IsFound(Stream(t, b))
    ensures Follows(s, u)
  {
    PairedLink(s, t, a, b, View(u, a));
    PairedLink(s, t, b, a, View(u, b));
    forall i: nat
      ensures P.Reaches(View(s, i), View(u, i))
    {
      if i != a && i != b {
        StaysReaches(s, t, i);
        P.ReachesTrans(View(s, i), View(t, i), View(u, i));
      }
    }
  }

  lemma PairedLink(s: Loop, t: Loop, a: nat, b: nat, m: P.Link)
    requires a < |t.conns| && b < |t.conns| && SeenPaired(s, t, a, b) && P.Reaches(P.OnRead(View(t, a)), m)
    requires P.IsFound(Stream(t, b))
    ensures P.Reaches(View(s, a), m)
  {
    if View(t, a) == P.Gone {
      P.GoneReaches(View(s, a), m);
    } else {
      P.PairedReaches(View(s, a), View(t, a), InRanked(t, a), Stream(t, b), m);
    }
  }

  // ---------------------------------------------------------------- the first command, authentication

  lemma WaitingMoves(s: Loop, c: nat, d: Conn)
    requires Live(s, c) && s.conns[c].stage == FirstFrame && ReadFirst(s.conns[c].rx).Waiting?
    requires d == s.conns[c].(rx := ReadFirst(s.conns[c].rx).rx)
    ensures Moves(s, Revised(s, c, d, 0), c, P.OnFirst(View(s, c)))
  {
    RewrittenOthers(s, c, d);
    RefilledView(s, c, d);
    P.ReachesSelf(P.OnFirst(View(s, c)));
    if !OnPath(s, c) { assert View(Revised(s, c, d, 0), c) == P.Gone; }
  }

  /** The command noted and the connection in the authentication stage: what QueuePath makes of
      a queue command; other commands lead off the path. */
  lemma ChosenView(s: Loop, c: nat, d: Conn)
    requires Live(s, c) && s.conns[c].stage == FirstFrame && s.conns[c].room.None? && s.conns[c].ch.None?
    requires ReadFirst(s.conns[c].rx).Chosen? &&
             d == s.conns[c].(rx := d.rx, intent := d.intent, joinCode := d.joinCode)
    requires d.rx == ReadFirst(s.conns[c].rx).rx && d.intent == ReadFirst(s.conns[c].rx).intent
    ensures P.Reaches(P.OnFirst(View(s, c)), View(Staged(Revised(s, c, d, 0), c, Auth), c))
  {
    var t := Staged(Revised(s, c, d, 0), c, Auth);
    assert View(s, c) == P.Link(P.AtFirstFrame, s.conns[c].rx, [], false, s.conns[c].got);
    if d.intent == ToQueue {
      assert View(t, c) == P.Link(P.AtAuth, d.rx, [], false, s.conns[c].got);
      P.ReachesSelf(View(t, c));
    }
  }

  lemma ChosenOthers(s: Loop, c: nat, d: Conn, i: nat)
    requires Live(s, c) && d == s.conns[c].(rx := d.rx, intent := d.intent, joinCode := d.joinCode) && i != c
    ensures View(Staged(Revised(s, c, d, 0), c, Auth), i) == View(s, i)
  {
    RewrittenStays(s, c, d, i);
    StagedOthers(Revised(s, c, d, 0), c, Auth, i);
  }

  lemma ChosenReads(s: Loop, c: nat, d: Conn, t: Loop, u: Loop)
    requires Live(s, c) && s.conns[c].stage == FirstFrame && s.conns[c].room.None? && s.conns[c].ch.None?
    requires ReadFirst(s.conns[c].rx).Chosen? &&
             d == s.conns[c].(rx := d.rx, intent := d.intent, joinCode := d.joinCode)
    requires d.rx == ReadFirst(s.conns[c].rx).rx && d.intent == ReadFirst(s.conns[c].rx).intent
    requires t == Staged(Revised(s, c, d, 0), c, Auth) && Follows(t, u)
    ensures Reads(s, u, c, P.OnFirst(View(s, c)))
  {
    ChosenView(s, c, d);
    P.ReachesTrans(P.OnFirst(View(s, c)), View(t, c), View(u, c));
    forall i: nat | i != c
      ensures P.Reaches(View(s, i), View(u, i))
    {
      ChosenOthers(s, c, d, i);
    }
  }

  /** The parts of a connection a view depends on. */
  predicate SameSeen(c: Conn, d: Conn) {
    d.stage == c.stage && d.rx == c.rx && d.sent == c.sent && d.tx == c.tx && d.got == c.got && d.room == c.room &&
    d.ch == c.ch && d.isA == c.isA && d.intent == c.intent && d.ready == c.ready
  }

  lemma SeenFollows(s: Loop, t: Loop)
    requires |t.conns| == |s.conns| && t.chanAt == s.chanAt
    requires forall i :: 0 <= i < |s.conns| ==> SameSeen(s.conns[i], t.conns[i])
    ensures Follows(s, t)
  {
    forall i: nat
      ensures P.Reaches(View(s, i), View(t, i))
    {
      SeenView(s, t, i);
      P.ReachesSelf(View(s, i));
    }
  }

  lemma SeenView(s: Loop, t: Loop, i: nat)
    requires |t.conns| == |s.conns| && t.chanAt == s.chanAt
    requires forall j :: 0 <= j < |s.conns| ==> SameSeen(s.conns[j], t.conns[j])
    ensures View(t, i) == View(s, i)
  {
    if i < |s.conns| {
      assert Opponent(t, i) == Opponent(s, i);
      assert SameSeen(s.conns[i], t.conns[i]);
    }
  }

  lemma GreetedFollows(s: Loop, c: nat)
    requires c < |s.conns|
    ensures Follows(s, Greeted(s, c))
  {
    SeenFollows(s, Greeted(s, c));
  }

  lemma IdentifiedFollows(s: Loop, c: nat, id: int)
    requires c < |s.conns|
    ensures Follows(s, Identified(s, c, id))
  {
    SeenFollows(s, Identified(s, c, id));
  }

  // ---------------------------------------------------------------- rooms: off the path

  /** Connection c moves off the path, or is off it and stays off; nobody else sees anything. */
  lemma OffFollows(s: Loop, t: Loop, c: nat)
    requires c < |s.conns| && |t.conns| == |s.conns| && t.conns == s.conns[c := t.conns[c]] && t.chanAt == s.chanAt
    requires (t.conns[c].stage == Dead <==> s.conns[c].stage == Dead)
    requires t.conns[c].sent == s.conns[c].sent && t.conns[c].tx == s.conns[c].tx && !OnPath(t, c)
    ensures Follows(s, t)
  {
    forall i: nat
      ensures P.Reaches(View(s, i), View(t, i))
    {
      if i != c {
        OthersSee(s, t, c, i);
        P.ReachesSelf(View(s, i));
      }
    }
  }

  lemma OthersSee(s: Loop, t: Loop, c: nat, i: nat)
    requires c < |s.conns| && |t.conns| == |s.conns| && t.conns == s.conns[c := t.conns[c]] && t.chanAt == s.chanAt
    requires (t.conns[c].stage == Dead <==> s.conns[c].stage == Dead)
    requires t.conns[c].sent == s.conns[c].sent && t.conns[c].tx == s.conns[c].tx && i != c
    ensures View(t, i) == View(s, i)
  {
    if i < |s.conns| { assert Opponent(t, i) == Opponent(s, i); }
  }

  /** From s to t at most peer was sent anything. */
  ghost predicate Sends(s: Loop, t: Loop, peer: Option<nat>) { Evolves(s, t) && Quiet(s, t, Only(peer)) }

  /** In a room, or gone. */
  ghost predicate Housed(s: Loop, c: nat) { c < |s.conns| && (Live(s, c) ==> s.conns[c].room.Some?) }

  lemma HousedEvolves(s: Loop, t: Loop, c: nat)
    requires Evolves(s, t) && Housed(s, c)
    ensures Housed(t, c)
  {
    EvolvesConn(s, t, c);
  }

  /** What is said in a room nobody else sees. */
  lemma InformedFollows(s: Loop, t: Loop, peer: Option<nat>)
    requires Inv(s) && Inv(t) && Sends(s, t, peer) && (peer.Some? ==> Housed(s, peer.value))
    ensures Follows(s, t)
  {
    if peer.Some? && !Live(s, peer.value) { EvolvesConn(s, t, peer.value); }
    assert Quiet(s, t, {});
    SettledFollows(s, t);
  }

  /** ... nor what is said to somebody who is closed over it. */
  lemma TurnedSettles(s: Loop, t: Loop, u: Loop, c: nat)
    requires Sends(s, t, Some(c)) && Settles(t, u) && !Live(u, c)
    ensures Settles(s, u)
  {
    EvolvesTrans(s, t, u);
    QuietTrans(s, t, u, {c});
    QuietDead(s, u, {c});
  }

  /** Two players leave their room for a match. */
  lemma MatchedFollows(s: Loop, a: nat, b: nat, room: Option<nat>, ranked: bool)
    requires Links(s) && Live(s, a) && Live(s, b) && a != b && (room.Some? ==> room.value < |s.roomAt|)
    requires s.conns[a].stage == InRoom && s.conns[b].stage == InRoom
    ensures Follows(s, Matched(s, a, b, room, ranked))
  {
    var t := Matched(s, a, b, room, ranked);
    MatchedPlayers(s, a, b, room, ranked);
    forall i: nat
      ensures P.Reaches(View(s, i), View(t, i))
    {
      if i != a && i != b {
        MatchedOthers(s, a, b, room, ranked, i);
        P.ReachesSelf(View(s, i));
      }
    }
  }

  lemma MatchedPlayers(s: Loop, a: nat, b: nat, room: Option<nat>, ranked: bool)
    requires Live(s, a) && Live(s, b) && a != b && (room.Some? ==> room.value < |s.roomAt|)
    requires s.conns[a].stage == InRoom && s.conns[b].stage == InRoom
    ensures var t := Matched(s, a, b, room, ranked);
            |t.conns| == |s.conns| && t.conns[a].stage == InRoom && t.conns[b].stage == InRoom &&
            t.conns[a].intent == s.conns[a].intent && t.conns[b].intent == s.conns[b].intent &&
            (Means(s, a) ==> Means(t, a)) && (Means(s, b) ==> Means(t, b)) &&
            Opponent(t, a) == Some(b) && Opponent(t, b) == Some(a)
  {}

  /** ... and are told, or closed over it. */
  lemma RoomToldFollows(t: Loop, u: Loop, a: nat, b: nat)
    requires Links(t) && Links(u) && Evolves(t, u) && Quiet(t, u, {a, b}) && Live(t, a) && Live(t, b)
    requires t.conns[a].stage == InRoom && t.conns[b].stage == InRoom
    requires Opponent(t, a) == Some(b) && Opponent(t, b) == Some(a)
    ensures Follows(t, u)
  {
    EvolvesConn(t, u, a);
    EvolvesConn(t, u, b);
    forall i: nat
      ensures P.Reaches(View(t, i), View(u, i))
    {
      if i != a && i != b {
        ToldOthers(t, t, u, a, b, i);
        StaysReaches(t, u, i);
      }
    }
  }

  // ---------------------------------------------------------------- who stays in which room

  /** Whoever is alive is in the room it was in, in the same part, or has left it for a match. */
  ghost predicate SameHouse(s: Loop, t: Loop) {
    |t.conns| == |s.conns| &&
    forall i :: 0 <= i < |s.conns| && t.conns[i].stage != Dead ==>
      s.conns[i].stage != Dead && (t.conns[i].room == s.conns[i].room || t.conns[i].room.None?) &&
      t.conns[i].isHost == s.conns[i].isHost
  }

  /** Everybody follows its path, rooms are left for matches only. */
  ghost predicate Goes(s: Loop, t: Loop) { Follows(s, t) && SameHouse(s, t) }

  lemma GoesSelf(s: Loop)
    ensures Goes(s, s)
  {
    FollowsSelf(s);
  }

  lemma HouseTrans(s: Loop, t: Loop, u: Loop)
    requires SameHouse(s, t) && SameHouse(t, u)
    ensures SameHouse(s, u)
  {}

  lemma GoesTrans(s: Loop, t: Loop, u: Loop)
    requires Goes(s, t) && Goes(t, u)
    ensures Goes(s, u)
  {
    FollowsTrans(s, t, u);
    HouseTrans(s, t, u);
  }

  lemma CalmHouse(s: Loop, t: Loop)
    requires Calm(s, t)
    ensures SameHouse(s, t)
  {}

  lemma SettledGoes(s: Loop, t: Loop)
    requires Inv(s) && Inv(t) && Settles(s, t)
    ensures Goes(s, t)
  {
    SettledFollows(s, t);
    EvolvesCalm(s, t);
    CalmHouse(s, t);
  }

  lemma InformedGoes(s: Loop, t: Loop, peer: Option<nat>)
    requires Inv(s) && Inv(t) && Sends(s, t, peer) && (peer.Some? ==> Housed(s, peer.value))
    ensures Goes(s, t)
  {
    InformedFollows(s, t, peer);
    EvolvesCalm(s, t);
    CalmHouse(s, t);
  }

  /** The record of a room's occupant rewritten in place. */
  lemma OccupantGoes(s: Loop, c: nat, d: Conn)
    requires Housed(s, c) && SameLinks(s.conns[c], d) && d.sent == s.conns[c].sent && d.tx == s.conns[c].tx
    ensures Goes(s, Revised(s, c, d, 0))
  {
    OffFollows(s, Revised(s, c, d, 0), c);
  }

  lemma MatchedHouse(s: Loop, a: nat, b: nat, room: Option<nat>, ranked: bool)
    requires Live(s, a) && Live(s, b) && a != b && (room.Some? ==> room.value < |s.roomAt|)
    ensures SameHouse(s, Matched(s, a, b, room, ranked))
  {}

  lemma BothStagedHouse(s: Loop, a: nat, b: nat)
    requires Live(s, a) && Live(s, b)
    ensures SameHouse(s, Staged(Staged(s, a, Forwarding), b, Forwarding))
  {
    var t := Staged(s, a, Forwarding);
    StagedHouse(s, a, Forwarding);
    StagedHouse(t, b, Forwarding);
  }

  lemma StagedHouse(s: Loop, c: nat, st: Stage)
    requires Live(s, c)
    ensures SameHouse(s, Staged(s, c, st))
  {}

  lemma BothStagedMatch(s: Loop, a: nat, b: nat)
    requires Live(s, a) && Live(s, b)
    ensures SameMatch(s, Staged(Staged(s, a, Forwarding), b, Forwarding))
  {
    var t := Staged(s, a, Forwarding);
    StagedMatch(s, a, Forwarding);
    StagedMatch(t, b, Forwarding);
    MatchTrans(s, t, Staged(t, b, Forwarding));
  }

  // ---------------------------------------------------------------- bytes arrive

  /** A chunk taken in. */
  function Fed(c: Conn, chunk: seq<byte>): Conn { c.(rx := c.rx + chunk, got := c.got + chunk) }

  lemma FedView(s: Loop, c: nat, chunk: seq<byte>, d: Conn)
    requires c < |s.conns| && d == Fed(s.conns[c], chunk)
    ensures View(Revised(s, c, d, 0), c) == if OnPath(s, c) then P.Took(View(s, c), chunk) else P.Gone
  {
    RewrittenView(s, c, d);
  }

  /** Taking a chunk in and reading the buffer is QueuePath's reading of the chunk. */
  lemma FedReads(s: Loop, t: Loop, u: Loop, c: nat, chunk: seq<byte>, d: Conn)
    requires c < |s.conns| && chunk != [] && d == Fed(s.conns[c], chunk) && t == Revised(s, c, d, 0)
    requires Reads(t, u, c, P.OnRead(View(t, c)))
    ensures Reads(s, u, c, P.Step(View(s, c), P.Read(chunk)))
  {
    FedView(s, c, chunk, d);
    RewrittenOthers(s, c, d);
    FedLink(s, c, chunk, View(t, c));
  }

  lemma FedLink(s: Loop, c: nat, chunk: seq<byte>, l: P.Link)
    requires chunk != [] && l == if OnPath(s, c) then P.Took(View(s, c), chunk) else P.Gone
    ensures P.OnRead(l) == P.Step(View(s, c), P.Read(chunk))
  {}

  /** Closed, the others where their own events took them. */
  lemma DoneReads(s: Loop, t: Loop, c: nat, l: P.Link)
    requires Follows(s, t) && !OnPath(t, c)
    ensures Reads(s, t, c, l)
  {}

  lemma FirstLink(s: Loop, c: nat)
    requires Live(s, c) && s.conns[c].stage == FirstFrame && s.conns[c].room.None? && s.conns[c].ch.None?
    ensures P.OnRead(View(s, c)) == P.OnFirst(View(s, c))
  {}

  lemma ForwardLink(s: Loop, c: nat)
    requires Live(s, c) && s.conns[c].stage == Forwarding
    ensures P.OnRead(View(s, c)) == P.OnForward(View(s, c))
  {
    if !OnPath(s, c) { P.NothingToRead(P.Gone); }
  }

  /** Where reading changes nothing. */
  lemma IdleReads(s: Loop, c: nat)
    requires Live(s, c) && (s.conns[c].stage == Auth || (s.conns[c].stage == Queued && StaysQueued(s.conns[c].rx)))
    ensures Reads(s, s, c, P.OnRead(View(s, c)))
  {
    FollowsSelf(s);
  }

  lemma RoomReads(s: Loop, t: Loop, c: nat)
    requires Live(s, c) && s.conns[c].stage == InRoom && Follows(s, t)
    ensures Reads(s, t, c, P.OnRead(View(s, c)))
  {
    assert P.OnRead(View(s, c)) == View(s, c);
  }

  // ---------------------------------------------------------------- arrivals, and whole runs

  /** Nobody who is there sees anything; whoever is new is at the beginning. */
  ghost predicate Joins(s: Loop, t: Loop) {
    |s.conns| <= |t.conns| && (forall i: nat :: i < |s.conns| ==> View(t, i) == View(s, i)) &&
    forall i: nat :: |s.conns| <= i < |t.conns| ==> View(t, i) == P.Fresh
  }

  lemma AdmittedJoins(s: Loop, ip: seq<byte>)
    requires Links(s)
    ensures Joins(s, Admitted(s, ip))
  {
    var t := Admitted(s, ip);
    forall i: nat | i < |s.conns|
      ensures View(t, i) == View(s, i)
    {
      assert ConnLinked(s, i);
      if OnPath(s, i) || OnPath(t, i) {
        if s.conns[i].ch.Some? { assert SideLinked(s, s.conns[i].ch.value, !s.conns[i].isA); }
      }
    }
  }

  /** Every connection's view is the result of some run of QueuePath. */
  ghost predicate Traced(s: Loop) {
    forall i: nat :: P.Reached(View(s, i))
  }

  lemma TracedFollows(s: Loop, t: Loop)
    requires Traced(s) && Follows(s, t)
    ensures Traced(t)
  {
    forall i: nat
      ensures P.Reached(View(t, i))
    {
      assert P.Step(View(s, i), P.Read([])) == View(s, i);
      P.ReachedOn(View(s, i), P.Read([]), View(t, i));
    }
  }

  lemma TracedReads(s: Loop, t: Loop, c: nat, chunk: seq<byte>)
    requires Traced(s) && Reads(s, t, c, P.Step(View(s, c), P.Read(chunk)))
    ensures Traced(t)
  {
    forall i: nat
      ensures P.Reached(View(t, i))
    {
      if i == c {
        P.ReachedOn(View(s, c), P.Read(chunk), View(t, c));
      } else {
        assert P.Step(View(s, i), P.Read([])) == View(s, i);
        P.ReachedOn(View(s, i), P.Read([]), View(t, i));
      }
    }
  }

  lemma TracedJoins(s: Loop, t: Loop)
    requires Traced(s) && Joins(s, t)
    ensures Traced(t)
  {
    assert P.Fresh == P.Run([]);
    forall i: nat
      ensures P.Reached(View(t, i))
    {
      if i < |s.conns| { assert P.Reached(View(s, i)); }
    }
  }

  /** Stream integrity of the relay: take any state its handlers can bring about, and in it a
      queue player who forwards against a live opponent and whose bytes so far are those of a
      well-behaved client.  Then all the opponent has got is MATCH_FOUND, READY(1) and exactly
      the player's frames after QUEUE_JOIN and READY that such a match lets through, in order,
      and the unfinished rest is buffered. */
  lemma PlayIsExact(s: Loop, a: nat, c: P.Client)
    requires Steady(s) && Traced(s) && OnPath(s, a) && s.conns[a].stage == Forwarding
    requires c.Valid() && s.conns[a].got <= c.Stream()
    ensures LivePtr(s, Opponent(s, a)) && |Parse(s.conns[a].got).frames| >= 2
    ensures s.conns[a].rx == Parse(s.conns[a].got).rest
    ensures exists told, x :: P.IsFound(told) && Stream(s, Opponent(s, a).value) == told + P.Yes() + x &&
              Parse(x) == Parsed(true, KeepFrames(InRanked(s, a), Parse(s.conns[a].got).frames[2..]), [])
  {
    assert StageOk(s, a) && ConnLinked(s, a);
    var l := View(s, a);
    assert P.Reached(l);
    var es :| l == P.Run(es);
    P.StreamIntegrity(c, es);
    var told, x :| P.Shown(l, told, x) &&
      Parse(x) == Parsed(true, KeepFrames(l.ranked, Parse(l.got).frames[2..]), []);
    assert Stream(s, Opponent(s, a).value) == told + P.Yes() + x;
  }

  /** As long as such a player waits, its buffer keeps everything behind QUEUE_JOIN that may
      still matter. */
  lemma WaitIsExact(s: Loop, a: nat, c: P.Client)
    requires Steady(s) && Traced(s) && OnPath(s, a) && s.conns[a].stage in {Auth, Queued}
    requires c.Valid() && s.conns[a].got <= c.Stream()
    ensures |s.conns[a].got| >= |c.J()| && P.Holds(c, s.conns[a].rx, s.conns[a].got[|c.J()|..])
  {
    var l := View(s, a);
    assert P.Reached(l);
    var es :| l == P.Run(es);
    P.RunKeepsInv(c, es);
  }
}
