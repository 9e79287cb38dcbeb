/** The relay's elementary state changes and what each one keeps. */
module RelaySteps {
  import opened Wrappers
  import opened Bytes
  import opened Framing
  import opened RelayState

  // ---------------------------------------------------------------- who feeds whom

  /** Feeding is mutual: the partner a live connection is fed by is live and fed by it. */
  lemma FeederMutual(s: Loop, c: nat)
    requires Links(s) && Live(s, c) && Feeder(s, c).Some?
    ensures Live(s, Feeder(s, c).value) && Feeder(s, c).value != c
    ensures Feeder(s, Feeder(s, c).value) == Some(c)
  {
    assert ConnLinked(s, c);
    if s.conns[c].ch.Some? {
      var k := s.conns[c].ch.value;
      assert SideLinked(s, k, true) && SideLinked(s, k, false);
    } else {
      var r := s.conns[c].room.value;
      assert SlotLinked(s, r, true) && SlotLinked(s, r, false);
      assert ConnLinked(s, Feeder(s, c).value);
    }
  }

  // ---------------------------------------------------------------- backpressure

  /** pause_peer_read: stop or resume reading from whoever feeds dst. */
  function Paused(s: Loop, dst: nat, pause: bool): Loop
    requires dst < |s.conns|
  {
    var f := Feeder(s, dst);
    if !LivePtr(s, f) || s.conns[f.value].readPaused == pause then s
    else
      var c := s.conns[f.value];
      s.(conns := s.conns[f.value := c.(readPaused := pause, onRead := !pause, onWrite := c.wantWrite)])
  }

  lemma PausedWakeups(s: Loop, dst: nat)
    requires Links(s) && Live(s, dst) && Wakeups(s) && |s.conns[dst].tx| > SEND_HIGH_WATER
    ensures Wakeups(Paused(s, dst, true))
  {
    var t := Paused(s, dst, true);
    if Feeder(s, dst).Some? {
      FeederMutual(s, dst);
    }
    forall i | 0 <= i < |t.conns|
      ensures Awake(t, i)
    {
      assert Awake(s, i);
      PausedAwake(s, dst, i);
    }
  }

  lemma PausedAwake(s: Loop, dst: nat, i: nat)
    requires Live(s, dst) && |s.conns[dst].tx| > SEND_HIGH_WATER && i < |s.conns| && Awake(s, i)
    requires Feeder(s, dst).Some? ==> Live(s, Feeder(s, dst).value) && Feeder(s, Feeder(s, dst).value) == Some(dst)
    ensures Awake(Paused(s, dst, true), i)
  {}

  lemma ResumedWakeups(s: Loop, c: nat)
    requires Links(s) && Live(s, c) && WakeupsBut(s, c)
    ensures WakeupsBut(Paused(s, c, false), c)
  {
    var t := Paused(s, c, false);
    if Feeder(s, c).Some? {
      FeederMutual(s, c);
    }
    forall i | 0 <= i < |t.conns| && i != c
      ensures AwakeBut(t, i, c)
    {
      assert AwakeBut(s, i, c);
      ResumedAwake(s, c, i);
    }
  }

  lemma ResumedAwake(s: Loop, c: nat, i: nat)
    requires c < |s.conns| && i < |s.conns| && i != c && AwakeBut(s, i, c)
    requires Feeder(s, c).Some? ==> Live(s, Feeder(s, c).value) && Feeder(s, Feeder(s, c).value) == Some(c)
    ensures AwakeBut(Paused(s, c, false), i, c)
  {}

  /** Once nobody is paused on account of c, its partner's wake-up no longer depends on c. */
  lemma ResumedFully(s: Loop, c: nat)
    requires Links(s) && Live(s, c) && WakeupsBut(s, c) && Awake(s, c)
    requires Feeder(s, c).Some? ==> Live(s, Feeder(s, c).value) && !s.conns[Feeder(s, c).value].readPaused
    ensures Wakeups(s)
  {
    forall i | 0 <= i < |s.conns|
      ensures Awake(s, i)
    {
      if i != c && s.conns[i].stage != Dead {
        assert AwakeBut(s, i, c);
        if s.conns[i].readPaused {
          FeederMutual(s, i);
        }
      }
    }
  }

  ghost predicate Touched(s: Loop, t: Loop) {
    s == t || exists i :: Retouched(s, t, i)
  }

  lemma PausedTouched(s: Loop, dst: nat, pause: bool)
    requires dst < |s.conns|
    ensures Touched(s, Paused(s, dst, pause))
    ensures TxSum(Paused(s, dst, pause).conns) == TxSum(s.conns)
    ensures forall i :: 0 <= i < |s.conns| ==>
              Paused(s, dst, pause).conns[i].tx == s.conns[i].tx &&
              Paused(s, dst, pause).conns[i].rx == s.conns[i].rx &&
              Paused(s, dst, pause).conns[i].sent == s.conns[i].sent
  {
    var t, f := Paused(s, dst, pause), Feeder(s, dst);
    if t != s {
      assert Retouched(s, t, f.value);
      TxSumUpdate(s.conns, f.value, t.conns[f.value]);
    }
  }

  /** All the invariants nobody's buffers or scheduling can disturb. */
  ghost predicate Skeleton(s: Loop) {
    Links(s) && RoomsOccupied(s) && Counts(s) && Tables(s) && Leases(s) && QueueOk(s) && Channels(s)
  }

  lemma TouchedSkeleton(s: Loop, t: Loop)
    requires Touched(s, t) && Skeleton(s)
    ensures Skeleton(t)
  {
    if s != t {
      var i :| Retouched(s, t, i);
      RetouchLinks(s, t, i);
      RetouchCounts(s, t, i);
      RetouchRest(s, t, i);
      RetouchLeases(s, t, i);
    }
  }

  lemma PausedInvBut(s: Loop, c: nat)
    requires InvBut(s, c) && Live(s, c)
    ensures InvBut(Paused(s, c, false), c)
    ensures Live(Paused(s, c, false), c)
  {
    var t := Paused(s, c, false);
    PausedTouched(s, c, false);
    assert Skeleton(t) by { TouchedSkeleton(s, t); }
    assert WakeupsBut(t, c) by { ResumedWakeups(s, c); }
    assert BuffersBut(t, c) && OutputsBut(t, c) && Live(t, c) by { PausedBuffersBut(s, c, t); }
  }

  lemma PausedBuffersBut(s: Loop, c: nat, t: Loop)
    requires BuffersBut(s, c) && OutputsBut(s, c) && Live(s, c) && t == Paused(s, c, false)
    ensures BuffersBut(t, c) && OutputsBut(t, c) && Live(t, c)
  {
    PausedTouched(s, c, false);
    SameBuffersBut(s, t, c);
  }

  lemma SameBuffersBut(s: Loop, t: Loop, c: nat)
    requires BuffersBut(s, c) && |t.conns| == |s.conns| && TxSum(t.conns) == TxSum(s.conns)
    requires t.txTotal == s.txTotal && t.lim == s.lim
    requires forall i :: 0 <= i < |s.conns| ==> t.conns[i].tx == s.conns[i].tx && t.conns[i].rx == s.conns[i].rx &&
                                                t.conns[i].stage == s.conns[i].stage
    ensures BuffersBut(t, c)
  {}

  // ---------------------------------------------------------------- buffering

  /** Connection i replaced by d, the process-wide send total moved by delta. */
  function Revised(s: Loop, i: nat, d: Conn, delta: int): Loop
    requires i < |s.conns|
  {
    s.(conns := s.conns[i := d], txTotal := s.txTotal + delta)
  }

  /** Revising one connection's buffers keeps everything but, possibly, its own limits. */
  lemma RevisedKeeps(s: Loop, i: nat, d: Conn, delta: int)
    requires InvBut(s, i) && Live(s, i) && SameLinks(s.conns[i], d)
    requires |d.tx| == |s.conns[i].tx| + delta
    ensures Skeleton(Revised(s, i, d, delta))
    ensures BuffersBut(Revised(s, i, d, delta), i)
    ensures OutputsBut(Revised(s, i, d, delta), i)
  {
    var t := Revised(s, i, d, delta);
    assert Skeleton(t) by {
      assert Retouched(s, t, i);
      TouchedSkeleton(s, t);
    }
    RevisedBuffers(s, i, d, delta);
  }

  lemma RevisedBuffers(s: Loop, i: nat, d: Conn, delta: int)
    requires BuffersBut(s, i) && OutputsBut(s, i) && i < |s.conns| && |d.tx| == |s.conns[i].tx| + delta
    ensures BuffersBut(Revised(s, i, d, delta), i) && OutputsBut(Revised(s, i, d, delta), i)
  {
    TxSumUpdate(s.conns, i, d);
  }

  lemma RevisedFeeder(s: Loop, i: nat, d: Conn, delta: int, j: nat)
    requires i < |s.conns| && j < |s.conns| && SameLinks(s.conns[i], d)
    ensures Feeder(Revised(s, i, d, delta), j) == Feeder(s, j)
  {}

  lemma RevisedWakeupsBut(s: Loop, i: nat, d: Conn, delta: int)
    requires WakeupsBut(s, i) && Live(s, i) && SameLinks(s.conns[i], d)
    ensures WakeupsBut(Revised(s, i, d, delta), i)
  {
    var t := Revised(s, i, d, delta);
    forall j | 0 <= j < |t.conns| && j != i
      ensures AwakeBut(t, j, i)
    {
      assert AwakeBut(s, j, i);
      RevisedFeeder(s, i, d, delta, j);
    }
  }

  /** Nobody else's wake-up depends on it unless pending bytes drained below the mark. */
  lemma RevisedWakeups(s: Loop, i: nat, d: Conn, delta: int)
    requires Wakeups(s) && Links(s) && Live(s, i) && SameLinks(s.conns[i], d)
    requires |d.tx| >= |s.conns[i].tx| || |d.tx| > SEND_HIGH_WATER
    requires d.readPaused == s.conns[i].readPaused
    requires d.onRead == !d.readPaused && d.onWrite == d.wantWrite && d.wantWrite == (|d.tx| != 0)
    ensures Wakeups(Revised(s, i, d, delta))
  {
    var t := Revised(s, i, d, delta);
    assert Awake(s, i);
    RevisedAwake(s, i, d, delta);
    forall j | 0 <= j < |t.conns|
      ensures Awake(t, j)
    {
      assert Awake(s, j);
      RevisedFeeder(s, i, d, delta, j);
    }
  }

  lemma RevisedAwake(s: Loop, i: nat, d: Conn, delta: int)
    requires Links(s) && Live(s, i) && Awake(s, i) && SameLinks(s.conns[i], d)
    requires d.readPaused == s.conns[i].readPaused
    requires d.onRead == !d.readPaused && d.onWrite == d.wantWrite && d.wantWrite == (|d.tx| != 0)
    ensures Awake(Revised(s, i, d, delta), i)
  {
    RevisedFeeder(s, i, d, delta, i);
    if Feeder(s, i).Some? {
      FeederMutual(s, i);
    }
  }

  /** queue_send, after the kernel took the first n bytes of data: the rest waits in tx. */
  function Buffering(c: Conn, data: seq<byte>, n: nat): Conn
    requires n <= |data|
  {
    if n < |data| then Armed(Appended(c, data[..n], data[n..])) else Appended(c, data[..n], data[n..])
  }

  function Appended(c: Conn, took: seq<byte>, rest: seq<byte>): Conn {
    c.(sent := c.sent + took, tx := c.tx + rest)
  }

  /** arm_write(c, true) */
  function Armed(c: Conn): Conn { c.(wantWrite := true, onRead := !c.readPaused, onWrite := true) }

  /** d is c with the data in its stream: same place, right interest. */
  ghost predicate Takes(c: Conn, d: Conn, data: seq<byte>) {
    SameLinks(c, d) && d.rx == c.rx && d.readPaused == c.readPaused && d.intent == c.intent &&
    d.joinCode == c.joinCode && d.ready == c.ready && d.heard == c.heard && d.got == c.got && |d.tx| >= |c.tx| &&
    d.sent + d.tx == (c.sent + c.tx) + data &&
    (Tuned(c) ==> Tuned(d))
  }

  /** The registered interest is what the connection's own state calls for. */
  predicate Tuned(c: Conn) {
    c.onRead == !c.readPaused && c.onWrite == c.wantWrite && c.wantWrite == (|c.tx| != 0)
  }

  lemma BufferingTakes(c: Conn, data: seq<byte>, n: nat)
    requires n <= |data| && (|c.tx| == 0 || n == 0)
    ensures Takes(c, Buffering(c, data, n), data)
    ensures |Buffering(c, data, n).tx| == |c.tx| + (|data| - n)
  {
    JoinPending(c.sent, c.tx, data, n);
    BufferingConn(c, data, n);
    if Tuned(c) { BufferingTuned(c, data, n); }
  }

  lemma BufferingConn(c: Conn, data: seq<byte>, n: nat)
    requires n <= |data|
    ensures var d := Buffering(c, data, n);
            SameLinks(c, d) && |d.tx| == |c.tx| + (|data| - n) && d.readPaused == c.readPaused && d.rx == c.rx &&
            d.intent == c.intent && d.joinCode == c.joinCode && d.ready == c.ready && d.heard == c.heard &&
            d.got == c.got &&
            d.sent == c.sent + data[..n] && d.tx == c.tx + data[n..]
  {
    AppendedConn(c, data[..n], data[n..], Appended(c, data[..n], data[n..]));
    if n < |data| { ArmedConn(Appended(c, data[..n], data[n..])); }
  }

  lemma AppendedConn(c: Conn, took: seq<byte>, rest: seq<byte>, d: Conn)
    requires d == Appended(c, took, rest)
    ensures SameLinks(c, d) && d.readPaused == c.readPaused && d.rx == c.rx && d.intent == c.intent &&
            d.joinCode == c.joinCode && d.ready == c.ready && d.heard == c.heard && d.got == c.got &&
            d.sent == c.sent + took && d.tx == c.tx + rest
  {}

  lemma ArmedConn(c: Conn)
    ensures var d := Armed(c);
            SameLinks(c, d) && d.readPaused == c.readPaused && d.rx == c.rx && d.intent == c.intent &&
            d.joinCode == c.joinCode && d.ready == c.ready && d.heard == c.heard && d.got == c.got &&
            d.sent == c.sent && d.tx == c.tx
  {}

  lemma BufferingTuned(c: Conn, data: seq<byte>, n: nat)
    requires n <= |data| && Tuned(c)
    ensures Tuned(Buffering(c, data, n))
  {
    if n < |data| { assert |c.tx + data[n..]| != 0; } else { assert c.tx + data[n..] == c.tx; }
  }

  lemma JoinPending(sent: seq<byte>, tx: seq<byte>, data: seq<byte>, n: nat)
    requires n <= |data| && (|tx| == 0 || n == 0)
    ensures (sent + data[..n]) + (tx + data[n..]) == (sent + tx) + data
  {
    if n == 0 {
      assert sent + data[..0] == sent && data[0..] == data;
      Associates(sent, tx, data);
    } else {
      assert tx == [];
      assert sent + tx == sent && tx + data[n..] == data[n..];
      Associates(sent, data[..n], data[n..]);
      TakeAndDrop(data, n);
    }
  }

  lemma TakeAndDrop<T>(s: seq<T>, n: nat)
    requires n <= |s|
    ensures s[..n] + s[n..] == s
  {
  }

  /** Taking data in leaves at most the receiver itself over a limit. */
  lemma TakenKeeps(s: Loop, i: nat, d: Conn, delta: int, data: seq<byte>)
    requires Inv(s) && Live(s, i) && Takes(s.conns[i], d, data) && |d.tx| == |s.conns[i].tx| + delta
    ensures var t := Revised(s, i, d, delta);
            InvBut(t, i) && Wakeups(t)
  {
    var t := Revised(s, i, d, delta);
    assert InvBut(s, i) by { InvWeaken(s, i); }
    RevisedKeeps(s, i, d, delta);
    assert Awake(s, i);
    RevisedWakeups(s, i, d, delta);
    WakeupsWeaken(t, i);
  }

  /** Within its limits the receiver of whole frames keeps every invariant. */
  lemma TakenInv(s: Loop, i: nat, d: Conn, delta: int, data: seq<byte>)
    requires Inv(s) && Live(s, i) && Takes(s.conns[i], d, data) && |d.tx| == |s.conns[i].tx| + delta
    requires WholeFrames(data) && |d.tx| <= SEND_HARD_CAP && s.txTotal + delta <= s.lim.txBudget
    ensures Inv(Revised(s, i, d, delta))
  {
    var t := Revised(s, i, d, delta);
    assert InvBut(t, i) && Wakeups(t) by { TakenKeeps(s, i, d, delta, data); }
    assert WholeFrames(d.sent + d.tx) by { WholeFramesAppend(s.conns[i].sent + s.conns[i].tx, data); }
    assert |s.conns[i].rx| <= RX_CAP;
  }

  /** on_writable: the kernel takes the first n pending bytes. */
  function Draining(c: Conn, n: nat): Conn
    requires n <= |c.tx|
  {
    c.(sent := c.sent + c.tx[..n], tx := c.tx[n..])
  }

  /** arm_write(c, false) when nothing waits. */
  function Disarming(c: Conn): Conn {
    if |c.tx| == 0 && c.wantWrite then c.(wantWrite := false, onRead := !c.readPaused, onWrite := false) else c
  }

  lemma DrainingConn(c: Conn, n: nat)
    requires n <= |c.tx| && Tuned(c)
    ensures Drains(c, Disarming(Draining(c, n))) && |Disarming(Draining(c, n)).tx| == |c.tx| - n
  {
    assert c.tx == c.tx[..n] + c.tx[n..];
    Associates(c.sent, c.tx[..n], c.tx[n..]);
  }

  /** d is c after the kernel took some pending bytes: same place, same stream, right interest. */
  ghost predicate Drains(c: Conn, d: Conn) {
    SameLinks(c, d) && |d.tx| <= |c.tx| && d.rx == c.rx && d.readPaused == c.readPaused &&
    d.intent == c.intent && d.joinCode == c.joinCode && d.ready == c.ready && d.heard == c.heard && d.got == c.got &&
    Tuned(d) &&
    d.sent + d.tx == c.sent + c.tx
  }

}
