/** What a send, a close and everything a close sets off may and may not change: the frame
    every handler relies on when it calls them. */
module RelayFrame {
  import opened Wrappers
  import opened Bytes
  import opened Framing
  import opened RelayState
  import opened RelaySteps
  import opened RelayClose
  import opened RelayMatch

  /** A connection dies, or stays where it is with its stream only extended; in a room its
      READY may be withdrawn. */
  ghost predicate ConnEvolves(c: Conn, d: Conn) {
    if c.stage == Dead then d == c
    else d.stage == Dead ||
         (SameLinks(c, d) && d.rx == c.rx && d.got == c.got && d.intent == c.intent && d.joinCode == c.joinCode &&
          d.heard == c.heard &&
          (d.ready ==> c.ready) && (c.room.None? ==> d.ready == c.ready) && c.sent + c.tx <= d.sent + d.tx)
  }

  ghost predicate RoomEvolves(r: Room, q: Room) {
    q.code == r.code && (q.host == r.host || q.host == None) && (q.guest == r.guest || q.guest == None)
  }

  ghost predicate ChanEvolves(c: Channel, d: Channel) {
    d.ranked == c.ranked && d.aId == c.aId && d.bId == c.bId && d.sumA == c.sumA && d.sumB == c.sumB &&
    (d.a == c.a || d.a == None) && (d.b == c.b || d.b == None) && (c.handled ==> d.handled)
  }

  ghost predicate Evolves(s: Loop, t: Loop) {
    t.lim == s.lim && t.table == s.table && t.chans == s.chans && t.matchCount == s.matchCount &&
    s.refused <= t.refused &&
    |t.conns| == |s.conns| && |t.roomAt| == |s.roomAt| && |t.chanAt| == |s.chanAt| &&
    (forall i :: 0 <= i < |s.conns| ==> ConnEvolves(s.conns[i], t.conns[i])) &&
    (forall r :: 0 <= r < |s.roomAt| ==> RoomEvolves(s.roomAt[r], t.roomAt[r])) &&
    (forall code :: code in t.rooms ==> code in s.rooms && s.rooms[code] == t.rooms[code]) &&
    (forall k :: 0 <= k < |s.chanAt| ==> ChanEvolves(s.chanAt[k], t.chanAt[k])) &&
    QueueEvolves(s, t)
  }

  ghost predicate QueueEvolves(s: Loop, t: Loop) {
    (forall x :: x in t.queue ==> x in s.queue) &&
    (forall x :: x in s.queue && Live(t, x) ==> x in t.queue) &&
    (forall x :: x in s.pendingAuth && Live(t, x) ==> x in t.pendingAuth) &&
    |t.queue| <= |s.queue|
  }

  /** Whoever is still alive is where it was, and sides of matches are at most vacated. */
  ghost predicate Calm(s: Loop, t: Loop) {
    |t.conns| == |s.conns| && |t.chanAt| == |s.chanAt| &&
    (forall i :: 0 <= i < |s.conns| && t.conns[i].stage != Dead ==> SameLinks(s.conns[i], t.conns[i])) &&
    (forall k :: 0 <= k < |s.chanAt| ==>
       (t.chanAt[k].a == s.chanAt[k].a || t.chanAt[k].a == None) &&
       (t.chanAt[k].b == s.chanAt[k].b || t.chanAt[k].b == None))
  }

  lemma EvolvesCalm(s: Loop, t: Loop)
    requires Evolves(s, t)
    ensures Calm(s, t)
  {
    forall i | 0 <= i < |s.conns| && t.conns[i].stage != Dead
      ensures SameLinks(s.conns[i], t.conns[i])
    {
      assert ConnEvolves(s.conns[i], t.conns[i]);
    }
    forall k | 0 <= k < |s.chanAt|
      ensures (t.chanAt[k].a == s.chanAt[k].a || t.chanAt[k].a == None) &&
              (t.chanAt[k].b == s.chanAt[k].b || t.chanAt[k].b == None)
    {
      assert ChanEvolves(s.chanAt[k], t.chanAt[k]);
    }
  }

  lemma CalmTrans(s: Loop, t: Loop, u: Loop)
    requires Calm(s, t) && Calm(t, u)
    ensures Calm(s, u)
  {}

  /** Buffers, accounts and decisions are not places. */
  lemma RevisedCalm(s: Loop, i: nat, d: Conn, delta: int)
    requires i < |s.conns| && SameLinks(s.conns[i], d)
    ensures Calm(s, Revised(s, i, d, delta))
  {}

  lemma ChanRevisedCalm(s: Loop, k: nat, d: Channel, ps: seq<Post>, tearing: set<nat>)
    requires k < |s.chanAt| && d.a == s.chanAt[k].a && d.b == s.chanAt[k].b
    ensures Calm(s, ChanRevised(s, k, d, ps, tearing))
  {}

  lemma EvolvesRefl(s: Loop)
    ensures Evolves(s, s)
  {}

  lemma ConnEvolvesTrans(c: Conn, d: Conn, e: Conn)
    requires ConnEvolves(c, d) && ConnEvolves(d, e)
    ensures ConnEvolves(c, e)
  {}

  lemma EvolvesTrans(s: Loop, t: Loop, u: Loop)
    requires Evolves(s, t) && Evolves(t, u)
    ensures Evolves(s, u)
  {
    forall i | 0 <= i < |s.conns|
      ensures ConnEvolves(s.conns[i], u.conns[i])
    {
      ConnEvolvesTrans(s.conns[i], t.conns[i], u.conns[i]);
    }
    forall r | 0 <= r < |s.roomAt|
      ensures RoomEvolves(s.roomAt[r], u.roomAt[r])
    {
      assert RoomEvolves(s.roomAt[r], t.roomAt[r]) && RoomEvolves(t.roomAt[r], u.roomAt[r]);
    }
    forall k | 0 <= k < |s.chanAt|
      ensures ChanEvolves(s.chanAt[k], u.chanAt[k])
    {
      assert ChanEvolves(s.chanAt[k], t.chanAt[k]) && ChanEvolves(t.chanAt[k], u.chanAt[k]);
    }
    QueueTrans(s, t, u);
  }

  lemma QueueTrans(s: Loop, t: Loop, u: Loop)
    requires Evolves(s, t) && Evolves(t, u)
    ensures QueueEvolves(s, u)
  {
    forall x | x in s.queue && Live(u, x)
      ensures x in u.queue
    {
      assert ConnEvolves(t.conns[x], u.conns[x]);
    }
    forall x | x in s.pendingAuth && Live(u, x)
      ensures x in u.pendingAuth
    {
      assert ConnEvolves(t.conns[x], u.conns[x]);
    }
  }

  /** Nobody comes back to life. */
  lemma EvolvesLive(s: Loop, t: Loop)
    requires Evolves(s, t)
    ensures LiveSet(t.conns) <= LiveSet(s.conns)
    ensures |LiveSet(t.conns)| <= |LiveSet(s.conns)|
  {
    forall i | i in LiveSet(t.conns)
      ensures i in LiveSet(s.conns)
    {
      assert ConnEvolves(s.conns[i], t.conns[i]);
    }
    SmallerSet(LiveSet(t.conns), LiveSet(s.conns));
  }

  lemma EvolvesConn(s: Loop, t: Loop, i: nat)
    requires Evolves(s, t) && i < |s.conns|
    ensures ConnEvolves(s.conns[i], t.conns[i])
    ensures Live(t, i) ==> Live(s, i)
  {}

  lemma EvolvesChan(s: Loop, t: Loop, k: nat)
    requires Evolves(s, t) && k < |s.chanAt|
    ensures ChanEvolves(s.chanAt[k], t.chanAt[k])
  {}

  lemma EvolvesRoom(s: Loop, t: Loop, r: nat)
    requires Evolves(s, t) && r < |s.roomAt|
    ensures RoomEvolves(s.roomAt[r], t.roomAt[r])
    ensures RoomOpen(t, r) ==> RoomOpen(s, r)
    ensures s.roomAt[r].code in t.rooms && RoomOpen(s, r) ==> RoomOpen(t, r)
  {
    assert RoomEvolves(s.roomAt[r], t.roomAt[r]);
  }

  // ---------------------------------------------------------------- elementary steps evolve

  lemma GoneEvolves(s: Loop, c: nat)
    requires Live(s, c)
    ensures Evolves(s, Gone(s, c))
    ensures LiveSet(Gone(s, c).conns) == LiveSet(s.conns) - {c}
    ensures |LiveSet(Gone(s, c).conns)| < |LiveSet(s.conns)|
  {
    assert Evolves(s, Gone(s, c)) by { GoneFrame(s, c); }
    var t := Gone(s, c);
    assert LiveSet(t.conns) == LiveSet(s.conns) - {c};
    assert c in LiveSet(s.conns);
  }

  lemma GoneFrame(s: Loop, c: nat)
    requires Live(s, c)
    ensures Evolves(s, Gone(s, c))
  {}

  lemma RevisedEvolves(s: Loop, i: nat, d: Conn, delta: int)
    requires Live(s, i) && ConnEvolves(s.conns[i], d)
    ensures Evolves(s, Revised(s, i, d, delta))
    ensures d.stage != Dead ==> LiveSet(Revised(s, i, d, delta).conns) == LiveSet(s.conns)
  {}

  lemma PausedEvolves(s: Loop, dst: nat, pause: bool)
    requires dst < |s.conns|
    ensures Evolves(s, Paused(s, dst, pause))
    ensures LiveSet(Paused(s, dst, pause).conns) == LiveSet(s.conns)
  {
    var f := Feeder(s, dst);
    if LivePtr(s, f) {
      var c := s.conns[f.value];
      RevisedEvolves(s, f.value, c.(readPaused := pause, onRead := !pause, onWrite := c.wantWrite), 0);
    }
  }

  lemma ChanRevisedEvolves(s: Loop, k: nat, d: Channel, ps: seq<Post>, tearing: set<nat>)
    requires k < |s.chanAt| && ChanEvolves(s.chanAt[k], d)
    ensures Evolves(s, ChanRevised(s, k, d, ps, tearing))
  {}

  lemma RoomErasedEvolves(s: Loop, r: nat)
    requires r < |s.roomAt|
    ensures Evolves(s, RoomErased(s, r))
  {}

  lemma BuriedEvolves(s: Loop, c: nat, tearing: set<nat>)
    requires QueueOk(s) && c < |s.conns| && !Live(s, c)
    ensures Evolves(s, Buried(s, c, tearing))
  {
    WithoutMembers(s.queue, c);
  }
}
