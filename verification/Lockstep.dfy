/** net/session.cpp and the tick block of src/main.cpp: a client that sends its inputs tick by
    tick, lets its network thread send empty inputs while the main thread stalls, and
    simulates both boards as far as both players' inputs are known. */
module Lockstep {
  import opened Bytes
  import opened SimRules
  import opened Duel

  const TICK_WINDOW: nat := 4096
  const MAX_BUFFERED: nat := 8192

  function Max(a: int, b: int): int { if a < b then b else a }
  function Min(a: int, b: int): int { if a < b then a else b }

  /** What is known of the opponent's inputs. */
  datatype Heard = Heard(inputs: map<nat, nat>, latest: nat)

  /** One input of an INPUT frame: dropped outside the window around cur or when the buffer is
      full; the first mask for a tick counts. */
  function Noted(h: Heard, cur: nat, tick: nat, mask: nat): Heard {
    if Max(tick - cur, cur - tick) > TICK_WINDOW then h
    else if |h.inputs| >= MAX_BUFFERED && tick !in h.inputs then h
    else Heard(if tick in h.inputs then h.inputs else h.inputs[tick := mask], Max(h.latest, tick))
  }

  /** Nothing is known of the opponent but what it sent. */
  ghost predicate Truthful(h: Heard, theirs: seq<nat>) {
    forall t :: t in h.inputs ==> t < |theirs| && h.inputs[t] == theirs[t]
  }

  ghost predicate InWindow(tick: int, cur: int) { -4096 <= tick - cur <= 4096 }

  /** What one INPUT frame, with a mask for each tick from the given one on, makes of what was
      known, cur being the latest tick known before. */
  ghost predicate Buffers(h: Heard, h': Heard, cur: nat, from: nat, masks: seq<nat>) {
    OnlyNew(h, h', cur, from, masks) && AllTaken(h', cur, from, masks) && LatestOf(h, h', cur, from, masks)
  }

  /** Masks known before stay, the others are the frame's, of ticks near cur; and the buffer
      does not outgrow its bound. */
  ghost predicate OnlyNew(h: Heard, h': Heard, cur: nat, from: nat, masks: seq<nat>) {
    (forall t :: t in h.inputs ==> t in h'.inputs && h'.inputs[t] == h.inputs[t]) &&
    (forall t :: t in h'.inputs && t !in h.inputs ==>
       from <= t < from + |masks| && h'.inputs[t] == masks[t - from] && InWindow(t, cur)) &&
    |h'.inputs| <= Max(|h.inputs|, 8192)
  }

  /** A tick near cur is known afterwards, unless the buffer is full. */
  ghost predicate AllTaken(h': Heard, cur: nat, from: nat, masks: seq<nat>) {
    forall t :: from <= t < from + |masks| && InWindow(t, cur) ==> t in h'.inputs || |h'.inputs| >= 8192
  }

  /** The latest tick is the greatest of the one before and those of the frame that count. */
  ghost predicate LatestOf(h: Heard, h': Heard, cur: nat, from: nat, masks: seq<nat>) {
    h.latest <= h'.latest &&
    (forall t :: from <= t < from + |masks| && InWindow(t, cur) && t in h'.inputs ==> t <= h'.latest) &&
    (h'.latest == h.latest ||
     (from <= h'.latest < from + |masks| && InWindow(h'.latest, cur) && h'.latest in h'.inputs))
  }

  /** One more mask of the frame. */
  lemma BuffersOn(h: Heard, g: Heard, g': Heard, cur: nat, from: nat, masks: seq<nat>, i: nat, next: nat, tick: nat)
    requires i < |masks| && next == i + 1 && tick == from + i && Buffers(h, g, cur, from, masks[..i])
    requires g' == Noted(g, cur, tick, masks[i])
    ensures Buffers(h, g', cur, from, masks[..next])
  {
    NewOn(h, g, g', cur, from, masks, i, next, tick);
    TakenOn(g, g', cur, from, masks, i, next, tick);
    LatestOn(h, g, g', cur, from, masks, i, next, tick);
  }

  lemma NewOn(h: Heard, g: Heard, g': Heard, cur: nat, from: nat, masks: seq<nat>, i: nat, next: nat, tick: nat)
    requires i < |masks| && next == i + 1 && tick == from + i && OnlyNew(h, g, cur, from, masks[..i])
    requires g' == Noted(g, cur, tick, masks[i])
    ensures OnlyNew(h, g', cur, from, masks[..next])
  {
    forall t | t in g'.inputs && t !in h.inputs
      ensures from <= t < from + next && g'.inputs[t] == masks[..next][t - from] && InWindow(t, cur)
    {
      if t in g.inputs { assert masks[..i][t - from] == masks[t - from]; }
    }
  }

  lemma LatestOn(h: Heard, g: Heard, g': Heard, cur: nat, from: nat, masks: seq<nat>, i: nat, next: nat, tick: nat)
    requires i < |masks| && next == i + 1 && tick == from + i && LatestOf(h, g, cur, from, masks[..i])
    requires g' == Noted(g, cur, tick, masks[i])
    ensures LatestOf(h, g', cur, from, masks[..next])
  {}

  lemma TakenOn(g: Heard, g': Heard, cur: nat, from: nat, masks: seq<nat>, i: nat, next: nat, tick: nat)
    requires i < |masks| && next == i + 1 && tick == from + i && AllTaken(g, cur, from, masks[..i])
    requires g' == Noted(g, cur, tick, masks[i])
    ensures AllTaken(g', cur, from, masks[..next])
  {
    forall t | from <= t < from + next && InWindow(t, cur)
      ensures t in g'.inputs || |g'.inputs| >= 8192
    {
      if t != tick { assert t in g.inputs || |g.inputs| >= 8192; }
    }
  }

  /** A single input: it counts exactly if it is near cur and there is room for it, or it is
      known already. */
  lemma BuffersOne(h: Heard, h': Heard, cur: nat, tick: nat, mask: nat)
    requires Buffers(h, h', cur, tick, [mask]) && |h.inputs| <= 8192
    ensures var taken := InWindow(tick, cur) && (tick in h.inputs || |h.inputs| < 8192);
            h'.inputs == (if taken && tick !in h.inputs then h.inputs[tick := mask] else h.inputs) &&
            h'.latest == if taken then Max(h.latest, tick) else h.latest
  {
    assert forall t :: t in h'.inputs ==> t in h.inputs || t == tick;
    if tick in h'.inputs && tick !in h.inputs {
      assert h'.inputs == h.inputs[tick := mask];
    } else {
      assert h'.inputs == h.inputs;
    }
  }

  class Client {
    const rules: Rules
    const delay: nat

    // network session
    var lastLocalTick: nat
    var heartbeatEnd: nat        // last tick sent by the heartbeat, 0 if none
    var mainActive: bool         // the main thread has sent at least one input
    var remoteInputs: map<nat, nat>
    var lastRemoteTick: nat
    var sent: seq<nat>           // the mask handed to the socket for each tick, in order

    // main thread
    var localInputs: map<nat, nat>
    var localTickNext: nat
    var simTick: nat
    var duel: Duel

    /** No tick is ever sent with two masks: what was sent is one mask per tick, the main
        thread's own where it has been, 0 where the heartbeat is ahead of it. */
    ghost predicate Valid()
      reads this
    {
      |sent| == Max(localTickNext, if heartbeatEnd > 0 then heartbeatEnd + 1 else 0) &&
      lastLocalTick == Max(|sent| - 1, 0) && (mainActive <==> localTickNext > 0) &&
      (heartbeatEnd > 0 ==> mainActive) &&
      (forall t :: t in localInputs <==> 0 <= t < localTickNext) &&
      (forall t :: 0 <= t < localTickNext ==> localInputs[t] == sent[t]) &&
      (forall t :: localTickNext <= t < |sent| ==> sent[t] == 0)
    }

    /** The simulation is the duel of the two input streams, as far as it has got, and it has
        not run past the end of a game. */
    ghost predicate Simulates(theirs: seq<nat>)
      reads this
    {
      Truthful(Known(), theirs) && |remoteInputs| <= 8192 &&
      simTick <= localTickNext <= |sent| && simTick <= |theirs| &&
      duel == Fought(rules, sent[..simTick], theirs[..simTick]) &&
      Running(rules, sent[..simTick], theirs[..simTick])
    }

    constructor (rules: Rules, delay: nat)
      ensures Valid() && Simulates([]) && sent == [] && this.rules == rules
    {
      this.rules, this.delay := rules, delay;
      lastLocalTick, heartbeatEnd, mainActive, remoteInputs, lastRemoteTick, sent := 0, 0, false, map[], 0, [];
      localInputs, localTickNext, simTick, duel := map[], 0, 0, rules.start;
    }

    /** The opponent sending more changes nothing here. */
    lemma SimulatesMore(theirs: seq<nat>, more: seq<nat>)
      requires Simulates(theirs) && theirs <= more
      ensures Simulates(more)
    {
      assert more[..simTick] == theirs[..simTick];
    }

    // ---------------------------------------------------------------- sending

    /** SendInput */
    method SendInput(tick: nat, mask: nat)
      requires tick == |sent|
      modifies this`mainActive, this`lastLocalTick, this`sent
      ensures mainActive && lastLocalTick == Max(old(lastLocalTick), tick) && sent == old(sent) + [mask]
    {
      mainActive := true;
      if tick > lastLocalTick { lastLocalTick := tick; }
      sent := sent + [mask];
    }

    /** The network thread's heartbeat while the main thread stalls; never before the first
        input of the main thread. */
    method Heartbeat(ghost theirs: seq<nat>)
      requires Valid() && Simulates(theirs)
      modifies this
      ensures Valid() && Simulates(theirs)
      ensures sent == if mainActive then old(sent) + [0] else old(sent)
    {
      if !mainActive { return; }
      var nextTick := lastLocalTick + 1;
      lastLocalTick := nextTick;
      heartbeatEnd := nextTick;
      Extended(sent, sent + [0], theirs, simTick);
      sent := sent + [0];
    }

    /** The sending half of the tick block: catch up with the heartbeat, then send this tick's
        input. */
    method SendTick(mask: nat, ghost theirs: seq<nat>)
      requires Valid() && Simulates(theirs)
      modifies this
      ensures Valid() && Simulates(theirs)
      ensures sent == if Over(duel) then old(sent) else old(sent) + [mask]
      ensures !Over(duel) ==> localTickNext == |sent|
    {
      if Over(duel) { return; }
      CatchUp(theirs);
      SendOwn(mask, theirs);
    }

    method SendOwn(mask: nat, ghost theirs: seq<nat>)
      requires Valid() && Simulates(theirs) && localTickNext == |sent|
      modifies this`localInputs, this`localTickNext, this`mainActive, this`lastLocalTick, this`sent
      ensures Valid() && Simulates(theirs) && sent == old(sent) + [mask] && localTickNext == |sent|
    {
      Extended(sent, sent + [mask], theirs, simTick);
      localInputs := localInputs[localTickNext := mask];
      SendInput(localTickNext, mask);
      localTickNext := localTickNext + 1;
    }

    /** Ticks the heartbeat has sent become our own empty inputs. */
    method CatchUp(ghost theirs: seq<nat>)
      requires Valid() && Simulates(theirs)
      modifies this`localInputs, this`localTickNext
      ensures Valid() && Simulates(theirs) && localTickNext == |sent|
    {
      if heartbeatEnd > 0 && heartbeatEnd >= localTickNext {
        var t := localTickNext;
        while t <= heartbeatEnd
          invariant localTickNext <= t <= heartbeatEnd + 1
          invariant forall u :: u in localInputs <==> 0 <= u < t
          invariant forall u :: 0 <= u < t ==> localInputs[u] == sent[u]
        {
          localInputs := localInputs[t := 0];
          t := t + 1;
        }
        localTickNext := heartbeatEnd + 1;
      }
    }

    // ---------------------------------------------------------------- receiving

    /** handleFrame for INPUT: from the given tick on, one mask per tick. */
    method HandleInput(from: nat, masks: seq<nat>)
      modifies this`remoteInputs, this`lastRemoteTick
      ensures Buffers(old(Known()), Known(), old(lastRemoteTick), from, masks)
    {
      var cur := lastRemoteTick;
      var i := 0;
      ghost var was := Known();
      assert masks[..|masks|] == masks;
      while i < |masks|
        invariant i <= |masks| && Buffers(was, Known(), cur, from, masks[..i])
      {
        ghost var next := i + 1;
        NoteNext(cur, from, masks, i, next, was);
        i := i + 1;
      }
    }

    method NoteNext(cur: nat, from: nat, masks: seq<nat>, i: nat, ghost next: nat, ghost was: Heard)
      requires i < |masks| && next == i + 1 && Buffers(was, Known(), cur, from, masks[..i])
      modifies this`remoteInputs, this`lastRemoteTick
      ensures Buffers(was, Known(), cur, from, masks[..next])
    {
      ghost var g := Known();
      var tick := from + i;
      Note(cur, tick, masks[i]);
      BuffersOn(was, g, Known(), cur, from, masks, i, next, tick);
    }

    function Known(): Heard
      reads this
    {
      Heard(remoteInputs, lastRemoteTick)
    }

    /** One input of the frame. */
    method Note(cur: nat, tick: nat, mask: nat)
      modifies this`remoteInputs, this`lastRemoteTick
      ensures Known() == Noted(old(Known()), cur, tick, mask)
    {
      if Max(tick - cur, cur - tick) > TICK_WINDOW { return; }
      if |remoteInputs| >= MAX_BUFFERED && tick !in remoteInputs { return; }
      if tick !in remoteInputs { remoteInputs := remoteInputs[tick := mask]; }
      if tick > lastRemoteTick { lastRemoteTick := tick; }
    }

    /** One of the opponent's inputs arrives, however late or often. */
    method Receive(tick: nat, mask: nat, ghost theirs: seq<nat>)
      requires Valid() && Simulates(theirs) && tick < |theirs| && theirs[tick] == mask
      modifies this
      ensures Valid() && Simulates(theirs) && sent == old(sent)
      ensures var taken := InWindow(tick, old(lastRemoteTick)) &&
                           (tick in old(remoteInputs) || |old(remoteInputs)| < 8192);
              remoteInputs == (if taken then old(remoteInputs)[tick := mask] else old(remoteInputs)) &&
              lastRemoteTick == if taken then Max(old(lastRemoteTick), tick) else old(lastRemoteTick)
    {
      HandleInput(tick, [mask]);
      BuffersOne(old(Known()), Known(), old(lastRemoteTick), tick, mask);
      if tick in old(remoteInputs) { assert old(remoteInputs)[tick := mask] == old(remoteInputs); }
    }

    // ---------------------------------------------------------------- simulating

    /** The last tick to simulate: both players' inputs, less the agreed delay. */
    function SafeTick(): int
      reads this
    {
      Min(localTickNext - 1, lastRemoteTick) - delay
    }

    /** The simulating half of the tick block: a tick is simulated once both players' inputs
        for the tick the agreed delay later are there; it stops at an unknown input and at the
        end of the game. */
    method Simulate(ghost theirs: seq<nat>)
      requires Valid() && Simulates(theirs)
      modifies this`simTick, this`duel
      ensures Valid() && Simulates(theirs)
      ensures old(simTick) <= simTick <= Max(old(simTick), SafeTick() + 1)
      ensures simTick > SafeTick() || simTick !in remoteInputs || Over(duel)
      ensures old(simTick) < simTick ==> simTick - 1 + delay < localTickNext && simTick - 1 + delay <= lastRemoteTick
      ensures simTick + delay < localTickNext && simTick + delay <= lastRemoteTick ==>
                simTick !in remoteInputs || Over(duel)
    {
      var safeTick := SafeTick();
      if Over(duel) { return; }
      while simTick <= safeTick
        invariant Valid() && Simulates(theirs) && (simTick <= safeTick ==> !Over(duel))
        invariant old(simTick) <= simTick <= Max(old(simTick), safeTick + 1)
        decreases safeTick - simTick
      {
        if simTick !in remoteInputs { break; }
        SimulateOne(theirs);
        if Over(duel) { break; }
      }
    }

    method SimulateOne(ghost theirs: seq<nat>)
      requires Valid() && Simulates(theirs) && !Over(duel)
      requires simTick < localTickNext && simTick in remoteInputs
      modifies this`simTick, this`duel
      ensures Valid() && Simulates(theirs) && simTick == old(simTick) + 1
    {
      var mine := if simTick in localInputs then localInputs[simTick] else 0;
      var other := remoteInputs[simTick];
      var next := simTick + 1;
      FoughtOn(rules, sent, theirs, simTick, next);
      duel := rules.step(duel, mine, other);
      simTick := next;
    }
  }

  lemma Extended(mine: seq<nat>, more: seq<nat>, theirs: seq<nat>, n: nat)
    requires mine <= more && n <= |mine| && n <= |theirs|
    ensures more[..n] == mine[..n]
  {}

  /** One more tick of the duel. */
  lemma FoughtOn(rules: Rules, mine: seq<nat>, theirs: seq<nat>, n: nat, next: nat)
    requires next == n + 1 && next <= |mine| && next <= |theirs|
    requires Running(rules, mine[..n], theirs[..n]) && !Over(Fought(rules, mine[..n], theirs[..n]))
    ensures Fought(rules, mine[..next], theirs[..next]) ==
            rules.step(Fought(rules, mine[..n], theirs[..n]), mine[n], theirs[n])
    ensures Running(rules, mine[..next], theirs[..next])
  {
    var a, b := mine[..next], theirs[..next];
    assert a[..n] == mine[..n] && b[..n] == theirs[..n];
    forall k | 0 <= k < next
      ensures !Over(Fought(rules, a[..k], b[..k]))
    {
      if k < n { assert a[..k] == mine[..n][..k] && b[..k] == theirs[..n][..k]; }
    }
  }

  // ---------------------------------------------------------------- two clients

  datatype Event =
    | Tick(left: bool, mask: nat)       // one run of the tick block
    | Stall(left: bool)                 // one heartbeat
    | Arrival(left: bool, tick: nat)    // one of the opponent's inputs gets through

  /** One round: both clients keep their promises to each other. */
  ghost predicate Paired(a: Client, b: Client)
    reads a, b
  {
    a != b && a.rules == b.rules && Fair(a.rules) && a.Valid() && b.Valid() &&
    a.Simulates(b.sent) && b.Simulates(a.sent)
  }

  method Happen(a: Client, b: Client, e: Event)
    requires Paired(a, b)
    modifies a, b
    ensures Paired(a, b)
  {
    match e
    case Tick(left, mask) => if left { RunTick(a, b, mask); } else { RunTick(b, a, mask); }
    case Stall(left) => if left { RunStall(a, b); } else { RunStall(b, a); }
    case Arrival(left, tick) => if left { RunArrival(a, b, tick); } else { RunArrival(b, a, tick); }
  }

  method RunTick(c: Client, other: Client, mask: nat)
    requires Paired(c, other)
    modifies c
    ensures Paired(c, other)
  {
    ghost var was := c.sent;
    c.SendTick(mask, other.sent);
    other.SimulatesMore(was, c.sent);
    c.Simulate(other.sent);
  }

  method RunStall(c: Client, other: Client)
    requires Paired(c, other)
    modifies c
    ensures Paired(c, other)
  {
    ghost var was := c.sent;
    c.Heartbeat(other.sent);
    other.SimulatesMore(was, c.sent);
  }

  /** Frames may be lost, doubled or overtaken. */
  method RunArrival(c: Client, other: Client, tick: nat)
    requires Paired(c, other)
    modifies c
    ensures Paired(c, other)
  {
    if tick < |other.sent| { c.Receive(tick, other.sent[tick], other.sent); }
  }

  /** One round under every interleaving of ticks, stalls, arrivals and losses: whenever both
      clients have simulated equally far, each holds the other's boards. */
  method Round(rules: Rules, delayA: nat, delayB: nat, script: seq<Event>) returns (a: Client, b: Client)
    requires Fair(rules)
    ensures Paired(a, b) && a.rules == rules
    ensures a.simTick == b.simTick ==> a.duel.local == b.duel.remote && a.duel.remote == b.duel.local
  {
    a := new Client(rules, delayA);
    b := new Client(rules, delayB);
    var i := 0;
    while i < |script|
      invariant fresh(a) && fresh(b) && Paired(a, b)
    {
      Happen(a, b, script[i]);
      i := i + 1;
    }
    if a.simTick == b.simTick { PairedSwaps(a, b); }
  }

  /** The same for the game itself: its two-board tick treats both sides alike. */
  method TetrisRound(seed: nat, delayA: nat, delayB: nat, script: seq<Event>) returns (a: Client, b: Client)
    ensures Paired(a, b) && a.rules == Tetris(seed)
    ensures a.simTick == b.simTick ==> a.duel.local == b.duel.remote && a.duel.remote == b.duel.local
  {
    TetrisIsFair(seed);
    a, b := Round(Tetris(seed), delayA, delayB, script);
  }

  lemma PairedSwaps(a: Client, b: Client)
    requires Paired(a, b) && a.simTick == b.simTick
    ensures b.duel == Swapped(a.duel)
  {
    FoughtSwaps(a.rules, a.sent[..a.simTick], b.sent[..a.simTick]);
  }

  /** Mirror agreement, with any hash of a board: the combined hashes two clients exchange can
      only differ if they have simulated different numbers of ticks. */
  lemma PairedMirrors(a: Client, b: Client, hash: Game -> nat)
    requires Paired(a, b)
    ensures a.simTick == b.simTick ==>
              a.duel.local == b.duel.remote && a.duel.remote == b.duel.local &&
              Xor(hash(a.duel.local), hash(a.duel.remote)) == Xor(hash(b.duel.local), hash(b.duel.remote))
  {
    if a.simTick == b.simTick {
      PairedSwaps(a, b);
      XorSymmetric(hash(a.duel.local), hash(a.duel.remote));
    }
  }

  /** Clients that both see the game over have stopped at the same tick. */
  lemma PairedStop(a: Client, b: Client)
    requires Paired(a, b) && Over(a.duel) && Over(b.duel)
    ensures a.simTick == b.simTick
  {
    StopTogether(a.rules, a.sent, b.sent, a.simTick, b.simTick);
  }
}
