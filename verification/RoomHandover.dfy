/** server/room.cpp: custom rooms with one thread per player.  Each method of the registry is
    one critical section; between two of them anything may happen in the other threads. */
module RoomHandover {
  import opened Wrappers

  type Code = int

  /** Where a player's thread is: entering as a guest, in its read loop, out of the loop on its
      way to the exit section, waiting as the starter, out of the loop for the starter, running
      the match, or finished. */
  datatype Phase = Joining | Reading | Left | Starting | HandedOver | Pumping | Done

  /** stamp: the version of the ROOM_INFO the thread still has to send.  said is history: the last
      readiness it noted, false if none. */
  datatype Thread = Thread(code: Code, isHost: bool, inst: nat, phase: Phase, stamp: Option<nat>, said: bool)

  datatype Entry = Entry(
    inst: nat,                          // distinguishes rooms that reuse a code
    host: nat, guest: Option<nat>,      // the threads that own the two sockets
    hostHere: bool, guestHere: bool,
    hostReady: bool, guestReady: bool,
    started: bool,
    hostOut: bool, guestOut: bool,      // has left its read loop for the match
    version: nat,
    agreed: bool)                       // history: both owners last said ready when it started

  /** startPump: both sockets go to the forwarders of one match.  agreed is the room's. */
  datatype Pump = Pump(inst: nat, host: nat, guest: nat, agreed: bool)

  datatype Notice = Notice(inst: nat, version: nat)

  datatype Registry = Registry(
    rooms: map<Code, Entry>, threads: seq<Thread>, gates: map<Code, nat>,
    nextInst: nat, nextVersion: nat,
    pumps: seq<Pump>, sent: seq<Notice>)

  function Owner(e: Entry, host: bool): Option<nat> { if host then Some(e.host) else e.guest }
  function Here(e: Entry, host: bool): bool { if host then e.hostHere else e.guestHere }
  function Ready(e: Entry, host: bool): bool { if host then e.hostReady else e.guestReady }
  function Out(e: Entry, host: bool): bool { if host then e.hostOut else e.guestOut }

  // ---------------------------------------------------------------- invariants

  predicate Active(p: Phase) { p.Joining? || p.Reading? || p.Left? || p.Starting? }

  /** A thread at work is present in the room it entered, and has not been handed over. */
  ghost predicate Attached(s: Registry, t: nat)
    requires t < |s.threads|
  {
    var th := s.threads[t];
    Active(th.phase) ==>
      th.code in s.rooms &&
      var e := s.rooms[th.code];
      e.inst == th.inst && Owner(e, th.isHost) == Some(t) && Here(e, th.isHost) && !Out(e, th.isHost) &&
      (th.phase.Starting? ==> e.started)
  }

  ghost predicate Owned(s: Registry, c: Code, host: bool)
    requires c in s.rooms
  {
    var e := s.rooms[c];
    Owner(e, host).Some? ==>
      Owner(e, host).value < |s.threads| &&
      var th := s.threads[Owner(e, host).value];
      th.code == c && th.isHost == host && th.inst == e.inst && (Out(e, host) ==> th.phase == HandedOver)
  }

  predicate StartsIn(s: Registry, p: Option<nat>) {
    p.Some? && p.value < |s.threads| && s.threads[p.value].phase.Starting?
  }

  ghost predicate EntryOk(s: Registry, c: Code)
    requires c in s.rooms
  {
    var e := s.rooms[c];
    e.inst < s.nextInst && e.version < s.nextVersion && Owned(s, c, true) && Owned(s, c, false) &&
    (e.hostOut || e.guestOut ==> e.started) && (e.guestOut ==> e.guest.Some?) &&
    (e.started ==> StartsIn(s, Some(e.host)) != StartsIn(s, e.guest))
  }

  ghost predicate ThreadsOk(s: Registry) {
    (forall t :: 0 <= t < |s.threads| ==> Attached(s, t) && s.threads[t].inst < s.nextInst) &&
    (forall t, u :: 0 <= t < |s.threads| && 0 <= u < |s.threads| && s.threads[t].inst == s.threads[u].inst ==>
       s.threads[t].code == s.threads[u].code)
  }

  ghost predicate RoomsOk(s: Registry) {
    forall c :: c in s.rooms ==> EntryOk(s, c)
  }

  /** A match was started by two threads of one room that have both left their read loops, and
      the room is gone. */
  ghost predicate PumpOk(s: Registry, p: Pump) {
    p.inst < s.nextInst && p.host < |s.threads| && p.guest < |s.threads| && p.host != p.guest &&
    s.threads[p.host].inst == p.inst && s.threads[p.guest].inst == p.inst &&
    s.threads[p.host].phase in {Pumping, HandedOver} && s.threads[p.guest].phase in {Pumping, HandedOver} &&
    forall c :: c in s.rooms ==> s.rooms[c].inst != p.inst
  }

  ghost predicate PumpsOk(s: Registry) {
    (forall i :: 0 <= i < |s.pumps| ==> PumpOk(s, s.pumps[i])) &&
    (forall i, j :: 0 <= i < j < |s.pumps| ==> s.pumps[i].inst != s.pumps[j].inst)
  }

  /** A pending notice is of a version of the thread's own room. */
  ghost predicate StampOk(s: Registry, t: nat)
    requires t < |s.threads|
  {
    var th := s.threads[t];
    th.stamp.Some? ==>
      th.stamp.value < s.nextVersion &&
      forall c :: c in s.rooms ==>
        (s.rooms[c].inst == th.inst ==> th.stamp.value <= s.rooms[c].version) &&
        (s.rooms[c].version == th.stamp.value ==> s.rooms[c].inst == th.inst)
  }

  /** Who holds a room's send gate sends the newest notice so far. */
  ghost predicate GateOk(s: Registry, c: Code)
    requires c in s.gates
  {
    var t := s.gates[c];
    t < |s.threads| && s.threads[t].code == c && s.threads[t].stamp.Some? &&
    forall i :: 0 <= i < |s.sent| && s.sent[i].inst == s.threads[t].inst ==>
      s.sent[i].version <= s.threads[t].stamp.value
  }

  ghost predicate SendsOk(s: Registry) {
    (forall t :: 0 <= t < |s.threads| ==> StampOk(s, t)) &&
    (forall c :: c in s.gates ==> GateOk(s, c)) &&
    (forall c, i :: c in s.rooms && 0 <= i < |s.sent| && s.sent[i].inst == s.rooms[c].inst ==>
       s.sent[i].version <= s.rooms[c].version) &&
    (forall i :: 0 <= i < |s.sent| ==> s.sent[i].inst < s.nextInst) &&
    Ordered(s.sent)
  }

  /** Version-checked notices of one room go out in the order of their versions. */
  ghost predicate Ordered(sent: seq<Notice>) {
    forall i, j :: 0 <= i < j < |sent| && sent[i].inst == sent[j].inst ==> sent[i].version <= sent[j].version
  }

  ghost predicate Inv(s: Registry) {
    ThreadsOk(s) && RoomsOk(s) && PumpsOk(s) && SendsOk(s)
  }

  /** What the invariant is for: a room is pumped at most once, nobody whose socket a match
      reads is in its own read loop, and nobody is in two matches. */
  lemma OneReaderPerSocket(s: Registry, p: Pump, t: nat)
    requires Inv(s) && p in s.pumps && (t == p.host || t == p.guest)
    ensures t < |s.threads| && !s.threads[t].phase.Reading? && !s.threads[t].phase.Joining?
    ensures forall q :: q in s.pumps && (t == q.host || t == q.guest) ==> q == p
    ensures forall q :: q in s.pumps && q.inst == p.inst ==> q == p
  {
    var i :| 0 <= i < |s.pumps| && s.pumps[i] == p;
    assert PumpOk(s, s.pumps[i]);
    forall q | q in s.pumps && q.inst == p.inst
      ensures q == p
    {
      var j :| 0 <= j < |s.pumps| && s.pumps[j] == q;
      SamePump(s, i, j);
    }
    forall q | q in s.pumps && (t == q.host || t == q.guest)
      ensures q == p
    {
      var j :| 0 <= j < |s.pumps| && s.pumps[j] == q;
      assert PumpOk(s, s.pumps[j]);
    }
  }

  lemma SamePump(s: Registry, i: nat, j: nat)
    requires PumpsOk(s) && i < |s.pumps| && j < |s.pumps| && s.pumps[i].inst == s.pumps[j].inst
    ensures i == j
  {}

  // ---------------------------------------------------------------- generic steps

  /** Thread t and its room's entry change together. */
  function Changed(s: Registry, t: nat, th: Thread, e: Entry): Registry
    requires t < |s.threads|
  {
    s.(threads := s.threads[t := th], rooms := s.rooms[th.code := e])
  }

  /** Thread t changes and its room goes. */
  function Erased(s: Registry, t: nat, th: Thread): Registry
    requires t < |s.threads|
  {
    s.(threads := s.threads[t := th], rooms := s.rooms - {th.code})
  }

  predicate SameThread(th: Thread, u: Thread) { u.code == th.code && u.isHost == th.isHost && u.inst == th.inst }

  predicate SameOwners(e: Entry, d: Entry) { d.inst == e.inst && d.host == e.host && d.guest == e.guest }

  /** No two rooms are the same instance: the hosts' threads tell them apart. */
  lemma Instances(s: Registry, c: Code, d: Code)
    requires ThreadsOk(s) && RoomsOk(s) && c in s.rooms && d in s.rooms && s.rooms[c].inst == s.rooms[d].inst
    ensures c == d
  {
    assert EntryOk(s, c) && EntryOk(s, d);
    assert s.threads[s.rooms[c].host].inst == s.threads[s.rooms[d].host].inst;
  }

  /** Conditions under which a thread's move inside its room keeps the room in order. */
  ghost predicate Sound(s: Registry, t: nat, th: Thread, e: Entry) {
    t < |s.threads| && SameThread(s.threads[t], th) && th.code in s.rooms && SameOwners(s.rooms[th.code], e) &&
    Active(s.threads[t].phase) && e.version < s.nextVersion &&
    Here(e, !th.isHost) == Here(s.rooms[th.code], !th.isHost) &&
    Out(e, !th.isHost) == Out(s.rooms[th.code], !th.isHost) &&
    (Active(th.phase) ==> Here(e, th.isHost) && !Out(e, th.isHost) && (th.phase.Starting? ==> e.started)) &&
    (Out(e, th.isHost) ==> th.phase == HandedOver && e.started) &&
    (s.rooms[th.code].started ==> e.started) &&
    (e.started ==> th.phase.Starting? != StartsIn(s, Owner(e, !th.isHost)))
  }

  lemma ChangedThreads(s: Registry, t: nat, th: Thread, e: Entry)
    requires ThreadsOk(s) && RoomsOk(s) && Sound(s, t, th, e)
    ensures ThreadsOk(Changed(s, t, th, e))
  {
    var s' := Changed(s, t, th, e);
    assert Attached(s, t);
    forall u | 0 <= u < |s'.threads|
      ensures Attached(s', u) && s'.threads[u].inst < s'.nextInst
    {
      assert Attached(s, u);
    }
  }

  lemma ChangedRooms(s: Registry, t: nat, th: Thread, e: Entry)
    requires ThreadsOk(s) && RoomsOk(s) && Sound(s, t, th, e)
    ensures RoomsOk(Changed(s, t, th, e))
  {
    var s' := Changed(s, t, th, e);
    assert Attached(s, t);
    forall c | c in s'.rooms
      ensures EntryOk(s', c)
    {
      assert EntryOk(s, c);
      if c != th.code { OtherOwners(s, t, c); }
    }
  }

  /** A thread owns a slot of its own room only. */
  lemma OtherOwners(s: Registry, t: nat, c: Code)
    requires c in s.rooms && EntryOk(s, c) && t < |s.threads| && s.threads[t].code != c
    ensures s.rooms[c].host != t && s.rooms[c].guest != Some(t)
  {}

  lemma ChangedPumps(s: Registry, t: nat, th: Thread, e: Entry)
    requires PumpsOk(s) && Sound(s, t, th, e)
    ensures PumpsOk(Changed(s, t, th, e))
  {
    var s' := Changed(s, t, th, e);
    forall i | 0 <= i < |s'.pumps|
      ensures PumpOk(s', s'.pumps[i])
    {
      assert PumpOk(s, s.pumps[i]);
    }
  }

  lemma ErasedThreads(s: Registry, t: nat, th: Thread)
    requires ThreadsOk(s) && t < |s.threads| && SameThread(s.threads[t], th) && !Active(th.phase)
    requires forall u :: 0 <= u < |s.threads| && u != t && s.threads[u].code == th.code ==> !Active(s.threads[u].phase)
    ensures ThreadsOk(Erased(s, t, th))
  {
    var s' := Erased(s, t, th);
    forall u | 0 <= u < |s'.threads|
      ensures Attached(s', u) && s'.threads[u].inst < s'.nextInst
    {
      assert Attached(s, u);
    }
  }

  lemma ErasedRooms(s: Registry, t: nat, th: Thread)
    requires RoomsOk(s) && t < |s.threads| && SameThread(s.threads[t], th)
    ensures RoomsOk(Erased(s, t, th))
  {
    var s' := Erased(s, t, th);
    forall c | c in s'.rooms
      ensures EntryOk(s', c)
    {
      assert EntryOk(s, c);
      OtherOwners(s, t, c);
    }
  }

  lemma ErasedPumps(s: Registry, t: nat, th: Thread)
    requires PumpsOk(s) && t < |s.threads| && SameThread(s.threads[t], th) && Active(s.threads[t].phase)
    ensures PumpsOk(Erased(s, t, th))
  {
    var s' := Erased(s, t, th);
    forall i | 0 <= i < |s'.pumps|
      ensures PumpOk(s', s'.pumps[i])
    {
      assert PumpOk(s, s.pumps[i]);
    }
  }

  /** Sends are undisturbed while versions only grow and stamps stay. */
  lemma ChangedSends(s: Registry, t: nat, th: Thread, e: Entry)
    requires ThreadsOk(s) && RoomsOk(s) && SendsOk(s) && Sound(s, t, th, e)
    requires th.stamp == s.threads[t].stamp && e.version == s.rooms[th.code].version
    ensures SendsOk(Changed(s, t, th, e))
  {
    var s' := Changed(s, t, th, e);
    forall u | 0 <= u < |s'.threads|
      ensures StampOk(s', u)
    {
      assert StampOk(s, u);
    }
    forall c | c in s'.gates
      ensures GateOk(s', c)
    {
      assert GateOk(s, c);
    }
  }

  lemma ErasedSends(s: Registry, t: nat, th: Thread)
    requires SendsOk(s) && t < |s.threads| && SameThread(s.threads[t], th) && th.stamp == s.threads[t].stamp
    ensures SendsOk(Erased(s, t, th))
  {
    var s' := Erased(s, t, th);
    forall u | 0 <= u < |s'.threads|
      ensures StampOk(s', u)
    {
      assert StampOk(s, u);
    }
    forall c | c in s'.gates
      ensures GateOk(s', c)
    {
      assert GateOk(s, c);
    }
  }

  // ---------------------------------------------------------------- critical sections

  /** A thread that is between two sends, so free to run its next critical section. */
  predicate Free(s: Registry, t: nat) { t < |s.threads| && s.threads[t].stamp.None? }

  /** handleCreate: a new room under an unused code, and its host's thread. */
  function Created(s: Registry, code: Code): Registry {
    var t := |s.threads|;
    s.(rooms := s.rooms[code :=
         Entry(s.nextInst, t, None, true, false, false, false, false, false, false, s.nextVersion, false)],
       threads := s.threads + [Thread(code, true, s.nextInst, Reading, Some(s.nextVersion), false)],
       nextInst := s.nextInst + 1, nextVersion := s.nextVersion + 1)
  }

  predicate SaysReady(s: Registry, t: nat) { t < |s.threads| && s.threads[t].said }

  /** Both slots are taken, by threads that last said they are ready. */
  predicate Agreed(s: Registry, e: Entry) {
    e.hostHere && e.guestHere && e.guest.Some? && SaysReady(s, e.host) && SaysReady(s, e.guest.value)
  }

  predicate CanJoin(s: Registry, code: Code) {
    code in s.rooms && !s.rooms[code].guestHere && !s.rooms[code].started && code !in s.gates
  }

  /** handleJoin, first half: the guest is in the room, and holds its send gate. */
  function Joined(s: Registry, code: Code): Registry
    requires code in s.rooms
  {
    var t, e := |s.threads|, s.rooms[code];
    s.(rooms := s.rooms[code := e.(guest := Some(t), guestHere := true, version := s.nextVersion)],
       threads := s.threads + [Thread(code, false, e.inst, Joining, Some(s.nextVersion), false)],
       gates := s.gates[code := t], nextVersion := s.nextVersion + 1)
  }

  predicate HoldsGate(s: Registry, t: nat) {
    t < |s.threads| && s.threads[t].code in s.gates && s.gates[s.threads[t].code] == t && s.threads[t].stamp.Some?
  }

  predicate IsCurrent(s: Registry, t: nat)
    requires t < |s.threads|
  {
    var th := s.threads[t];
    th.code in s.rooms && Some(s.rooms[th.code].version) == th.stamp
  }

  function NoticeOf(th: Thread): Notice
    requires th.stamp.Some?
  {
    Notice(th.inst, th.stamp.value)
  }

  /** Thread t's notice dealt with: th is t without its stamp, the gate is free. */
  function Settled(s: Registry, t: nat, th: Thread, notices: seq<Notice>): Registry
    requires t < |s.threads|
  {
    s.(threads := s.threads[t := th], gates := s.gates - {th.code}, sent := s.sent + notices)
  }

  /** Two notices, to host and guest, if the room is still the one that was joined. */
  function JoinChecked(s: Registry, t: nat): Registry
    requires HoldsGate(s, t)
  {
    var th := s.threads[t];
    if IsCurrent(s, t) then Settled(s, t, th.(phase := Reading, stamp := None), [NoticeOf(th), NoticeOf(th)])
    else Settled(s, t, th.(phase := Done, stamp := None), [])
  }

  /** sendRoomInfoIfCurrent_, up to the send: take the gate, or drop an outdated notice. */
  function Checked(s: Registry, t: nat): Registry
    requires t < |s.threads|
  {
    var th := s.threads[t];
    if IsCurrent(s, t) then s.(gates := s.gates[th.code := t])
    else s.(threads := s.threads[t := th.(stamp := None)])
  }

  function SentOff(s: Registry, t: nat): Registry
    requires HoldsGate(s, t)
  {
    Settled(s, t, s.threads[t].(stamp := None), [NoticeOf(s.threads[t])])
  }

  function Readied(e: Entry, host: bool, ready: bool): Entry {
    if host then e.(hostReady := ready) else e.(guestReady := ready)
  }

  function Exited(e: Entry, host: bool): Entry {
    if host then e.(hostOut := true) else e.(guestOut := true)
  }

  function Gone(e: Entry, host: bool, version: nat): Entry {
    if host then e.(hostHere := false, hostReady := false, version := version)
    else e.(guestHere := false, guestReady := false, version := version)
  }

  function ReadyNoted(s: Registry, t: nat, ready: bool): Registry
    requires t < |s.threads| && s.threads[t].code in s.rooms
  {
    Changed(s, t, s.threads[t].(said := ready), Readied(s.rooms[s.threads[t].code], s.threads[t].isHost, ready))
  }

  /** Out of the read loop. */
  function LoopLeft(s: Registry, t: nat): Registry
    requires t < |s.threads| && s.threads[t].code in s.rooms
  {
    Changed(s, t, s.threads[t].(phase := Left), s.rooms[s.threads[t].code])
  }

  /** The state check of the read loop: follow a match the other has started, or start one
      when both are here and ready. */
  function Observed(s: Registry, t: nat): Registry
    requires t < |s.threads| && s.threads[t].code in s.rooms
  {
    var th := s.threads[t];
    var e := s.rooms[th.code];
    if e.started then Changed(s, t, th.(phase := HandedOver), Exited(e, th.isHost))
    else if e.hostHere && e.guestHere && e.hostReady && e.guestReady then
      Changed(s, t, th.(phase := Starting), e.(started := true, agreed := Agreed(s, e)))
    else s
  }

  /** The exit section of a thread that leaves for good. */
  function Departed(s: Registry, t: nat): Registry
    requires t < |s.threads| && s.threads[t].code in s.rooms
  {
    var th := s.threads[t];
    var e := Gone(s.rooms[th.code], th.isHost, s.nextVersion);
    var s' := s.(nextVersion := s.nextVersion + 1);
    if e.hostHere || e.guestHere then Changed(s', t, th.(phase := Done, stamp := Some(s.nextVersion)), e)
    else Erased(s', t, th.(phase := Done))
  }

  /** The starter's wait is over: the other has left its read loop or the room. */
  predicate MayProceed(e: Entry, host: bool) {
    if host then e.guestOut || !e.guestHere else e.hostOut || !e.hostHere
  }

  /** With both still here both sockets are pumped; either way the room is gone. */
  function Proceeded(s: Registry, t: nat): Registry
    requires t < |s.threads| && s.threads[t].code in s.rooms
  {
    var th := s.threads[t];
    var e := s.rooms[th.code];
    if e.hostHere && e.guestHere && e.guest.Some?
    then Erased(s, t, th.(phase := Pumping)).(pumps := s.pumps + [Pump(e.inst, e.host, e.guest.value, e.agreed)])
    else Erased(s, t, th.(phase := Done))
  }

  // ---------------------------------------------------------------- every section keeps the invariant

  /** A change of thread and entry that neither stamps nor counts versions. */
  lemma ChangedKeeps(s: Registry, t: nat, th: Thread, e: Entry)
    requires Inv(s) && Sound(s, t, th, e) && th.stamp == s.threads[t].stamp && e.version == s.rooms[th.code].version
    ensures Inv(Changed(s, t, th, e))
  {
    ChangedThreads(s, t, th, e);
    ChangedRooms(s, t, th, e);
    ChangedPumps(s, t, th, e);
    ChangedSends(s, t, th, e);
  }

  lemma ReadyKeeps(s: Registry, t: nat, ready: bool)
    requires Inv(s) && Free(s, t) && s.threads[t].phase.Reading?
    ensures s.threads[t].code in s.rooms
    ensures Inv(ReadyNoted(s, t, ready))
  {
    assert Attached(s, t);
    var th := s.threads[t];
    assert EntryOk(s, th.code);
    ChangedKeeps(s, t, th.(said := ready), Readied(s.rooms[th.code], th.isHost, ready));
  }

  lemma LeftKeeps(s: Registry, t: nat)
    requires Inv(s) && Free(s, t) && s.threads[t].phase.Reading?
    ensures s.threads[t].code in s.rooms
    ensures Inv(Changed(s, t, s.threads[t].(phase := Left), s.rooms[s.threads[t].code]))
  {
    assert Attached(s, t);
    var th := s.threads[t];
    assert EntryOk(s, th.code);
    ChangedKeeps(s, t, th.(phase := Left), s.rooms[th.code]);
  }

  lemma ObservedKeeps(s: Registry, t: nat)
    requires Inv(s) && Free(s, t) && s.threads[t].phase.Reading?
    ensures s.threads[t].code in s.rooms && Inv(Observed(s, t))
  {
    assert Attached(s, t);
    var th := s.threads[t];
    var e := s.rooms[th.code];
    assert EntryOk(s, th.code);
    if e.started {
      ChangedKeeps(s, t, th.(phase := HandedOver), Exited(e, th.isHost));
    } else if e.hostHere && e.guestHere && e.hostReady && e.guestReady {
      NobodyStarts(s, th.code, !th.isHost);
      ChangedKeeps(s, t, th.(phase := Starting), e.(started := true, agreed := Agreed(s, e)));
    }
  }

  lemma NobodyStarts(s: Registry, c: Code, host: bool)
    requires Inv(s) && c in s.rooms && !s.rooms[c].started
    ensures !StartsIn(s, Owner(s.rooms[c], host))
  {
    assert EntryOk(s, c);
    var o := Owner(s.rooms[c], host);
    if o.Some? { assert Attached(s, o.value); }
  }

  /** The starter is alone: by the time it proceeds the other thread of the room is out. */
  lemma OthersOut(s: Registry, t: nat, u: nat)
    requires Inv(s) && t < |s.threads| && s.threads[t].phase.Starting? && u < |s.threads| && u != t
    requires s.threads[u].code == s.threads[t].code
    requires s.threads[t].code in s.rooms && MayProceed(s.rooms[s.threads[t].code], s.threads[t].isHost)
    ensures !Active(s.threads[u].phase)
  {
    assert Attached(s, t) && Attached(s, u);
    assert EntryOk(s, s.threads[t].code);
  }

  lemma ProceededKeeps(s: Registry, t: nat)
    requires Inv(s) && t < |s.threads| && s.threads[t].phase.Starting?
    requires s.threads[t].code in s.rooms && MayProceed(s.rooms[s.threads[t].code], s.threads[t].isHost)
    ensures Inv(Proceeded(s, t))
  {
    assert Attached(s, t);
    var th := s.threads[t];
    var e := s.rooms[th.code];
    forall u | 0 <= u < |s.threads| && u != t && s.threads[u].code == th.code
      ensures !Active(s.threads[u].phase)
    {
      OthersOut(s, t, u);
    }
    ErasedKeeps(s, t, th.(phase := Pumping));
    ErasedKeeps(s, t, th.(phase := Done));
    if e.hostHere && e.guestHere && e.guest.Some? {
      PumpStarts(s, t);
    }
  }

  lemma ErasedKeeps(s: Registry, t: nat, th: Thread)
    requires Inv(s) && t < |s.threads| && Active(s.threads[t].phase)
    requires SameThread(s.threads[t], th) && th.stamp == s.threads[t].stamp && !Active(th.phase)
    requires forall u :: 0 <= u < |s.threads| && u != t && s.threads[u].code == th.code ==> !Active(s.threads[u].phase)
    ensures Inv(Erased(s, t, th))
  {
    ErasedThreads(s, t, th);
    ErasedRooms(s, t, th);
    ErasedPumps(s, t, th);
    ErasedSends(s, t, th);
  }

  lemma PumpStarts(s: Registry, t: nat)
    requires Inv(s) && t < |s.threads| && s.threads[t].phase.Starting? && s.threads[t].code in s.rooms
    requires MayProceed(s.rooms[s.threads[t].code], s.threads[t].isHost)
    requires var e := s.rooms[s.threads[t].code]; e.hostHere && e.guestHere && e.guest.Some?
    requires Inv(Erased(s, t, s.threads[t].(phase := Pumping)))
    ensures Inv(Proceeded(s, t))
  {
    var th := s.threads[t];
    var e := s.rooms[th.code];
    var s0, s' := Erased(s, t, th.(phase := Pumping)), Proceeded(s, t);
    assert Attached(s, t) && EntryOk(s, th.code);
    var p := Pump(e.inst, e.host, e.guest.value, e.agreed);
    assert PumpOk(s', p) by { StarterPumps(s, t); }
    forall i | 0 <= i < |s.pumps|
      ensures s.pumps[i].inst != p.inst
    {
      assert PumpOk(s, s.pumps[i]);
    }
    PumpAdded(s0, s', p);
    SamePumpless(s0, s');
  }

  lemma PumpAdded(s: Registry, s': Registry, p: Pump)
    requires PumpsOk(s) && s' == s.(pumps := s.pumps + [p]) && PumpOk(s', p)
    requires forall i :: 0 <= i < |s.pumps| ==> s.pumps[i].inst != p.inst
    ensures PumpsOk(s')
  {
    forall i | 0 <= i < |s.pumps|
      ensures PumpOk(s', s'.pumps[i])
    {
      assert PumpOk(s, s.pumps[i]);
    }
  }

  lemma StarterPumps(s: Registry, t: nat)
    requires Inv(s) && t < |s.threads| && s.threads[t].phase.Starting? && s.threads[t].code in s.rooms
    requires MayProceed(s.rooms[s.threads[t].code], s.threads[t].isHost)
    requires var e := s.rooms[s.threads[t].code]; e.hostHere && e.guestHere && e.guest.Some?
    ensures var e := s.rooms[s.threads[t].code];
            PumpOk(Proceeded(s, t), Pump(e.inst, e.host, e.guest.value, e.agreed))
  {
    var th := s.threads[t];
    assert Attached(s, t) && EntryOk(s, th.code);
    forall c | c in s.rooms && c != th.code
      ensures s.rooms[c].inst != s.rooms[th.code].inst
    {
      if s.rooms[c].inst == s.rooms[th.code].inst { Instances(s, c, th.code); }
    }
  }

  /** Everything but the pumps is judged without looking at them. */
  lemma SamePumpless(s: Registry, s': Registry)
    requires ThreadsOk(s) && RoomsOk(s) && SendsOk(s) && s' == s.(pumps := s'.pumps)
    ensures ThreadsOk(s') && RoomsOk(s') && SendsOk(s')
  {
    forall t | 0 <= t < |s'.threads|
      ensures Attached(s', t) && StampOk(s', t)
    {
      assert Attached(s, t) && StampOk(s, t);
    }
    forall c | c in s'.rooms
      ensures EntryOk(s', c)
    {
      assert EntryOk(s, c);
    }
    forall c | c in s'.gates
      ensures GateOk(s', c)
    {
      assert GateOk(s, c);
    }
  }

  // A new version of a room: handleCreate, handleJoin and the exit section.

  /** The thread and its room's entry move to a version nobody has seen. */
  lemma BumpedSends(s: Registry, s': Registry, t: nat)
    requires ThreadsOk(s) && RoomsOk(s) && SendsOk(s) && t < |s'.threads| && |s.threads| <= |s'.threads|
    requires s'.sent == s.sent && s'.nextVersion == s.nextVersion + 1 && s.nextInst <= s'.nextInst
    requires s'.threads[t].code in s'.rooms && s'.threads[t].stamp == Some(s.nextVersion)
    requires s'.rooms[s'.threads[t].code].version == s.nextVersion
    requires s'.rooms[s'.threads[t].code].inst == s'.threads[t].inst
    requires forall u :: 0 <= u < |s'.threads| && u != t ==> u < |s.threads| && s'.threads[u] == s.threads[u]
    requires forall c :: c in s'.rooms && c != s'.threads[t].code ==> c in s.rooms && s'.rooms[c] == s.rooms[c]
    requires forall c :: c in s'.rooms && c != s'.threads[t].code ==> s.rooms[c].inst != s'.threads[t].inst
    requires forall c :: c in s'.gates ==> (c in s.gates && s'.gates[c] == s.gates[c] && s.gates[c] != t) ||
                                           (c == s'.threads[t].code && s'.gates[c] == t)
    requires forall i :: 0 <= i < |s.sent| && s.sent[i].inst == s'.threads[t].inst ==> s.sent[i].version < s.nextVersion
    ensures SendsOk(s')
  {
    forall u | 0 <= u < |s'.threads|
      ensures StampOk(s', u)
    {
      if u != t {
        var th := s'.threads[u];
        assert u < |s.threads| && th == s.threads[u];
        assert StampOk(s, u);
        BumpedStamp(s, s', t, u);
      } else {
        BumpedOwn(s, s', t);
      }
    }
    forall c | c in s'.gates
      ensures GateOk(s', c)
    {
      if c in s.gates { assert GateOk(s, c); }
    }
  }

  lemma BumpedStamp(s: Registry, s': Registry, t: nat, u: nat)
    requires ThreadsOk(s) && RoomsOk(s) && u < |s.threads| && StampOk(s, u) && t < |s'.threads| && u < |s'.threads|
    requires s'.nextVersion == s.nextVersion + 1 && s'.threads[u] == s.threads[u]
    requires s'.threads[t].code in s'.rooms && s'.rooms[s'.threads[t].code].version == s.nextVersion
    requires forall c :: c in s'.rooms && c != s'.threads[t].code ==> c in s.rooms && s'.rooms[c] == s.rooms[c]
    ensures StampOk(s', u)
  {}

  lemma BumpedOwn(s: Registry, s': Registry, t: nat)
    requires RoomsOk(s) && t < |s'.threads| && s'.nextVersion == s.nextVersion + 1
    requires s'.threads[t].code in s'.rooms && s'.threads[t].stamp == Some(s.nextVersion)
    requires s'.rooms[s'.threads[t].code].version == s.nextVersion
    requires s'.rooms[s'.threads[t].code].inst == s'.threads[t].inst
    requires forall c :: c in s'.rooms && c != s'.threads[t].code ==> c in s.rooms && s'.rooms[c] == s.rooms[c]
    requires forall c :: c in s'.rooms && c != s'.threads[t].code ==> s.rooms[c].inst != s'.threads[t].inst
    ensures StampOk(s', t)
  {
    forall c | c in s'.rooms && c != s'.threads[t].code
      ensures s'.rooms[c].version < s.nextVersion
    {
      assert EntryOk(s, c);
    }
  }

  lemma CreatedThreads(s: Registry, code: Code)
    requires ThreadsOk(s) && code !in s.rooms
    ensures ThreadsOk(Created(s, code))
  {
    var s' := Created(s, code);
    forall t | 0 <= t < |s'.threads|
      ensures Attached(s', t) && s'.threads[t].inst < s'.nextInst
    {
      if t < |s.threads| { assert Attached(s, t); }
    }
  }

  lemma CreatedKeeps(s: Registry, code: Code)
    requires Inv(s) && code !in s.rooms
    ensures Inv(Created(s, code))
  {
    var s' := Created(s, code);
    assert ThreadsOk(s') by { CreatedThreads(s, code); }
    forall c | c in s'.rooms
      ensures EntryOk(s', c)
    {
      if c != code { assert EntryOk(s, c); }
    }
    forall i | 0 <= i < |s'.pumps|
      ensures PumpOk(s', s'.pumps[i])
    {
      assert PumpOk(s, s.pumps[i]);
    }
    forall c | c in s.rooms
      ensures s.rooms[c].inst < s.nextInst
    {
      assert EntryOk(s, c);
    }
    forall c | c in s.gates
      ensures s.gates[c] < |s.threads|
    {
      assert GateOk(s, c);
    }
    BumpedSends(s, s', |s.threads|);
  }

  lemma JoinedThreads(s: Registry, code: Code)
    requires ThreadsOk(s) && RoomsOk(s) && CanJoin(s, code)
    ensures ThreadsOk(Joined(s, code)) && RoomsOk(Joined(s, code))
  {
    var s' := Joined(s, code);
    assert EntryOk(s, code);
    forall t | 0 <= t < |s'.threads|
      ensures Attached(s', t) && s'.threads[t].inst < s'.nextInst
    {
      if t < |s.threads| { assert Attached(s, t); }
    }
    forall c | c in s'.rooms
      ensures EntryOk(s', c)
    {
      assert EntryOk(s, c);
    }
    forall t, u | 0 <= t < |s'.threads| && 0 <= u < |s'.threads| && s'.threads[t].inst == s'.threads[u].inst
      ensures s'.threads[t].code == s'.threads[u].code
    {
      assert s.threads[s.rooms[code].host].inst == s.rooms[code].inst;
    }
  }

  lemma JoinedKeeps(s: Registry, code: Code)
    requires Inv(s) && CanJoin(s, code)
    ensures Inv(Joined(s, code))
  {
    var s' := Joined(s, code);
    JoinedThreads(s, code);
    assert EntryOk(s, code);
    forall i | 0 <= i < |s'.pumps|
      ensures PumpOk(s', s'.pumps[i])
    {
      assert PumpOk(s, s.pumps[i]);
    }
    forall c | c in s.rooms && c != code
      ensures s.rooms[c].inst != s.rooms[code].inst
    {
      if s.rooms[c].inst == s.rooms[code].inst { Instances(s, c, code); }
    }
    forall c | c in s.gates
      ensures s.gates[c] < |s.threads|
    {
      assert GateOk(s, c);
    }
    BumpedSends(s, s', |s.threads|);
  }

  lemma DepartedKeeps(s: Registry, t: nat)
    requires Inv(s) && Free(s, t) && s.threads[t].phase.Left?
    ensures s.threads[t].code in s.rooms && Inv(Departed(s, t))
  {
    var th := s.threads[t];
    assert th.code in s.rooms by { assert Attached(s, t); }
    var e := Gone(s.rooms[th.code], th.isHost, s.nextVersion);
    if e.hostHere || e.guestHere {
      var s0 := s.(nextVersion := s.nextVersion + 1);
      var th' := th.(phase := Done, stamp := Some(s.nextVersion));
      assert Departed(s, t) == Changed(s0, t, th', e);
      DepartedStays(s, s0, t, th', e);
    } else {
      DepartedErases(s, t, th.(phase := Done));
    }
  }

  lemma DepartedErases(s: Registry, t: nat, th: Thread)
    requires Inv(s) && Free(s, t) && s.threads[t].phase.Left?
    requires th == s.threads[t].(phase := Done) && th.code in s.rooms
    requires var e := Gone(s.rooms[th.code], th.isHost, s.nextVersion);
             !e.hostHere && !e.guestHere
    ensures Inv(Erased(s.(nextVersion := s.nextVersion + 1), t, th))
  {
    assert Attached(s, t);
    LastOut(s, t);
    LaterVersion(s);
    ErasedKeeps(s.(nextVersion := s.nextVersion + 1), t, th);
  }

  /** With nobody left in the room, no other thread is at work in it. */
  lemma LastOut(s: Registry, t: nat)
    requires ThreadsOk(s) && t < |s.threads| && s.threads[t].code in s.rooms && Attached(s, t) &&
             s.threads[t].phase.Left?
    requires var e := Gone(s.rooms[s.threads[t].code], s.threads[t].isHost, s.nextVersion);
             !e.hostHere && !e.guestHere
    ensures forall u :: 0 <= u < |s.threads| && u != t && s.threads[u].code == s.threads[t].code ==>
              !Active(s.threads[u].phase)
  {
    forall u | 0 <= u < |s.threads| && u != t && s.threads[u].code == s.threads[t].code
      ensures !Active(s.threads[u].phase)
    {
      assert Attached(s, u);
    }
  }

  lemma LaterVersion(s: Registry)
    requires Inv(s)
    ensures Inv(s.(nextVersion := s.nextVersion + 1))
  {
    var s' := s.(nextVersion := s.nextVersion + 1);
    forall t | 0 <= t < |s'.threads|
      ensures Attached(s', t) && StampOk(s', t)
    {
      assert Attached(s, t) && StampOk(s, t);
    }
    forall c | c in s'.rooms
      ensures EntryOk(s', c)
    {
      assert EntryOk(s, c);
    }
    forall c | c in s'.gates
      ensures GateOk(s', c)
    {
      assert GateOk(s, c);
    }
    forall i | 0 <= i < |s'.pumps|
      ensures PumpOk(s', s'.pumps[i])
    {
      assert PumpOk(s, s.pumps[i]);
    }
  }

  lemma DepartedStays(s: Registry, s0: Registry, t: nat, th: Thread, e: Entry)
    requires Inv(s) && s0 == s.(nextVersion := s.nextVersion + 1) && Free(s, t) && s.threads[t].phase.Left?
    requires s.threads[t].code in s.rooms && e == Gone(s.rooms[s.threads[t].code], s.threads[t].isHost, s.nextVersion)
    requires th == s.threads[t].(phase := Done, stamp := Some(s.nextVersion))
    ensures Inv(Changed(s0, t, th, e))
  {
    var s' := Changed(s0, t, th, e);
    assert Inv(s0) by { LaterVersion(s); }
    assert Attached(s, t) && EntryOk(s, th.code) && EntryOk(s0, th.code);
    ChangedThreads(s0, t, th, e);
    ChangedRooms(s0, t, th, e);
    ChangedPumps(s0, t, th, e);
    forall c | c in s.rooms && c != th.code
      ensures s.rooms[c].inst != th.inst
    {
      if s.rooms[c].inst == th.inst { Instances(s, c, th.code); }
    }
    forall c | c in s.gates
      ensures s.gates[c] != t
    {
      assert GateOk(s, c);
    }
    BumpedSends(s, s', t);
  }

  // Sending.

  /** Only stamps, gates and the record of sends move. */
  lemma StampsMove(s: Registry, s': Registry, t: nat, th: Thread)
    requires ThreadsOk(s) && RoomsOk(s) && PumpsOk(s) && t < |s.threads| && SameThread(s.threads[t], th)
    requires s' == s.(threads := s.threads[t := th], gates := s'.gates, sent := s'.sent)
    requires th.phase == s.threads[t].phase ||
             (s.threads[t].phase.Joining? && (th.phase.Reading? || th.phase.Done?))
    ensures ThreadsOk(s') && RoomsOk(s') && PumpsOk(s')
  {
    forall u | 0 <= u < |s'.threads|
      ensures Attached(s', u) && s'.threads[u].inst < s'.nextInst
    {
      assert Attached(s, u);
    }
    assert RoomsOk(s') by { StampsRooms(s, s', t, th); }
    assert PumpsOk(s') by { StampsPumps(s, s', t, th); }
  }

  lemma StampsRooms(s: Registry, s': Registry, t: nat, th: Thread)
    requires RoomsOk(s) && t < |s.threads| && SameThread(s.threads[t], th)
    requires s' == s.(threads := s.threads[t := th], gates := s'.gates, sent := s'.sent)
    requires th.phase == s.threads[t].phase ||
             (s.threads[t].phase.Joining? && (th.phase.Reading? || th.phase.Done?))
    ensures RoomsOk(s')
  {
    forall c | c in s'.rooms
      ensures EntryOk(s', c)
    {
      assert EntryOk(s, c);
    }
  }

  lemma StampsPumps(s: Registry, s': Registry, t: nat, th: Thread)
    requires PumpsOk(s) && t < |s.threads| && SameThread(s.threads[t], th)
    requires s' == s.(threads := s.threads[t := th], gates := s'.gates, sent := s'.sent)
    requires th.phase == s.threads[t].phase ||
             (s.threads[t].phase.Joining? && (th.phase.Reading? || th.phase.Done?))
    ensures PumpsOk(s')
  {
    forall i | 0 <= i < |s'.pumps|
      ensures PumpOk(s', s'.pumps[i])
    {
      assert PumpOk(s, s.pumps[i]);
    }
  }

  /** Whoever holds the gate adds the newest notice of its room. */
  lemma SettledSends(s: Registry, t: nat, th: Thread, notices: seq<Notice>)
    requires ThreadsOk(s) && RoomsOk(s) && SendsOk(s) && HoldsGate(s, t)
    requires SameThread(s.threads[t], th) && th.stamp.None?
    requires forall i :: 0 <= i < |notices| ==> notices[i] == NoticeOf(s.threads[t])
    ensures SendsOk(Settled(s, t, th, notices))
  {
    var s' := Settled(s, t, th, notices);
    assert GateOk(s, th.code) && StampOk(s, t);
    forall u | 0 <= u < |s'.threads|
      ensures StampOk(s', u)
    {
      assert StampOk(s, u);
    }
    forall c | c in s'.gates
      ensures GateOk(s', c)
    {
      assert GateOk(s, c);
      OtherGate(s, t, c);
    }
  }

  lemma OtherGate(s: Registry, t: nat, c: Code)
    requires ThreadsOk(s) && HoldsGate(s, t) && c in s.gates && GateOk(s, c) && c != s.threads[t].code
    ensures s.threads[s.gates[c]].inst != s.threads[t].inst && s.gates[c] != t
  {}

  lemma JoinCheckedKeeps(s: Registry, t: nat)
    requires Inv(s) && HoldsGate(s, t) && s.threads[t].phase.Joining?
    ensures Inv(JoinChecked(s, t))
  {
    var th := s.threads[t];
    var th' := if IsCurrent(s, t) then th.(phase := Reading, stamp := None) else th.(phase := Done, stamp := None);
    StampsMove(s, JoinChecked(s, t), t, th');
    SettledSends(s, t, th', if IsCurrent(s, t) then [NoticeOf(th), NoticeOf(th)] else []);
  }

  lemma SentOffKeeps(s: Registry, t: nat)
    requires Inv(s) && HoldsGate(s, t)
    ensures Inv(SentOff(s, t))
  {
    StampsMove(s, SentOff(s, t), t, s.threads[t].(stamp := None));
    SettledSends(s, t, s.threads[t].(stamp := None), [NoticeOf(s.threads[t])]);
  }

  lemma CheckedKeeps(s: Registry, t: nat)
    requires Inv(s) && t < |s.threads| && s.threads[t].stamp.Some? && s.threads[t].code !in s.gates
    ensures Inv(Checked(s, t))
  {
    var th := s.threads[t];
    var s' := Checked(s, t);
    StampsMove(s, s', t, if IsCurrent(s, t) then th else th.(stamp := None));
    forall u | 0 <= u < |s'.threads|
      ensures StampOk(s', u)
    {
      assert StampOk(s, u);
    }
    forall c | c in s'.gates
      ensures GateOk(s', c)
    {
      if c in s.gates { assert GateOk(s, c); } else { assert StampOk(s, t); }
    }
  }

  // ---------------------------------------------------------------- slots nobody serves

  predicate EndedIn(s: Registry, t: nat) { t < |s.threads| && s.threads[t].phase.Done? }

  /** The room keeps a guest whose thread has ended: nobody reads its socket or ever leaves. */
  predicate Abandoned(s: Registry, c: Code) {
    c in s.rooms && s.rooms[c].guestHere && s.rooms[c].guest.Some? && EndedIn(s, s.rooms[c].guest.value)
  }

  /** A host's slot is always served.  A guest whose notice is outdated, or who is gone before
      it entered its read loop, sits in a room without a host. */
  ghost predicate SlotsOk(s: Registry, c: Code)
    requires c in s.rooms
  {
    var e := s.rooms[c];
    (e.guestHere ==> e.guest.Some?) && (e.hostHere ==> !EndedIn(s, e.host)) &&
    (e.guestHere && e.hostHere ==>
       !EndedIn(s, e.guest.value) &&
       (e.guest.value < |s.threads| && s.threads[e.guest.value].phase.Joining? ==>
          s.threads[e.guest.value].stamp == Some(e.version)))
  }

  ghost predicate Served(s: Registry) {
    (forall c :: c in s.rooms ==> SlotsOk(s, c)) &&
    (forall t :: 0 <= t < |s.threads| ==> s.threads[t].phase.Joining? ==> !s.threads[t].isHost)
  }

  /** The rooms abandoned in s stay abandoned, unchanged, and those in x join them. */
  ghost predicate Abandons(s: Registry, s': Registry, x: set<Code>) {
    (forall c :: Abandoned(s', c) <==> Abandoned(s, c) || c in x) &&
    (forall c :: Abandoned(s, c) ==> s'.rooms[c] == s.rooms[c])
  }

  /** No thread is at work in an abandoned room. */
  lemma NobodyThere(s: Registry, t: nat)
    requires Inv(s) && Served(s) && t < |s.threads| && Active(s.threads[t].phase)
    ensures !Abandoned(s, s.threads[t].code)
  {
    assert Attached(s, t);
    assert SlotsOk(s, s.threads[t].code);
  }

  /** A thread's move in its own room touches no other. */
  lemma ChangedServed(s: Registry, t: nat, th: Thread, e: Entry)
    requires Inv(s) && Served(s) && t < |s.threads| && Active(s.threads[t].phase) && th.code == s.threads[t].code
    requires th.code in s.rooms && e.host == s.rooms[th.code].host && e.guest == s.rooms[th.code].guest
    requires (e.guestHere ==> s.rooms[th.code].guestHere) && (e.hostHere ==> s.rooms[th.code].hostHere)
    requires e.version == s.rooms[th.code].version || !e.guestHere || !e.hostHere
    requires th.phase.Done? ==> !Here(e, th.isHost) && th.isHost == s.threads[t].isHost
    requires s.threads[t].phase != Joining && th.phase != Joining
    ensures Served(Changed(s, t, th, e)) && Abandons(s, Changed(s, t, th, e), {})
  {
    var s' := Changed(s, t, th, e);
    assert Attached(s, t);
    NobodyThere(s, t);
    forall c | c in s'.rooms
      ensures SlotsOk(s', c) && (Abandoned(s', c) <==> Abandoned(s, c))
    {
      assert SlotsOk(s, c) && EntryOk(s, c);
      if c != th.code { OtherOwners(s, t, c); }
    }
  }

  lemma ErasedServed(s: Registry, t: nat, th: Thread)
    requires Inv(s) && Served(s) && t < |s.threads| && Active(s.threads[t].phase) && th.code == s.threads[t].code
    requires th.phase != Joining
    ensures Served(Erased(s, t, th)) && Abandons(s, Erased(s, t, th), {})
  {
    var s' := Erased(s, t, th);
    assert Attached(s, t);
    NobodyThere(s, t);
    forall c | c in s'.rooms
      ensures SlotsOk(s', c) && (Abandoned(s', c) <==> Abandoned(s, c))
    {
      assert SlotsOk(s, c) && EntryOk(s, c);
      OtherOwners(s, t, c);
    }
  }

  lemma CreatedServed(s: Registry, code: Code)
    requires Inv(s) && Served(s) && code !in s.rooms
    ensures Served(Created(s, code)) && Abandons(s, Created(s, code), {})
  {
    var s' := Created(s, code);
    forall c | c in s'.rooms
      ensures SlotsOk(s', c) && (Abandoned(s', c) <==> Abandoned(s, c))
    {
      if c != code { assert SlotsOk(s, c) && EntryOk(s, c); }
    }
  }

  lemma JoinedServed(s: Registry, code: Code)
    requires Inv(s) && Served(s) && CanJoin(s, code)
    ensures Served(Joined(s, code)) && Abandons(s, Joined(s, code), {})
  {
    var s' := Joined(s, code);
    forall c | c in s'.rooms
      ensures SlotsOk(s', c) && (Abandoned(s', c) <==> Abandoned(s, c))
    {
      assert SlotsOk(s, c) && EntryOk(s, c);
    }
  }

  /** A guest whose room has changed before it could be greeted is forgotten: its thread ends
      and its slot stays taken.  By then the host is gone. */
  lemma GreetedServed(s: Registry, t: nat)
    requires Inv(s) && Served(s) && HoldsGate(s, t) && s.threads[t].phase.Joining?
    ensures Served(JoinChecked(s, t))
    ensures Abandons(s, JoinChecked(s, t), if IsCurrent(s, t) then {} else {s.threads[t].code})
    ensures !IsCurrent(s, t) ==> s.threads[t].code in s.rooms && !s.rooms[s.threads[t].code].hostHere
  {
    var s', th := JoinChecked(s, t), s.threads[t];
    assert Attached(s, t) && SlotsOk(s, th.code) && EntryOk(s, th.code);
    NobodyThere(s, t);
    forall c | c in s'.rooms
      ensures SlotsOk(s', c) && (c != th.code ==> (Abandoned(s', c) <==> Abandoned(s, c)))
    {
      assert SlotsOk(s, c) && EntryOk(s, c);
      if c != th.code { OtherOwners(s, t, c); }
    }
  }

  /** Sending notices changes no slot. */
  lemma NoticedServed(s: Registry, s': Registry, t: nat, th: Thread)
    requires Served(s) && t < |s.threads| && !s.threads[t].phase.Joining? && th.phase == s.threads[t].phase
    requires s'.rooms == s.rooms && s'.threads == s.threads[t := th]
    ensures Served(s') && Abandons(s, s', {})
  {
    forall c | c in s'.rooms
      ensures SlotsOk(s', c) && (Abandoned(s', c) <==> Abandoned(s, c))
    {
      assert SlotsOk(s, c);
    }
  }

  lemma DepartedServed(s: Registry, t: nat)
    requires Inv(s) && Served(s) && Free(s, t) && s.threads[t].phase.Left?
    ensures s.threads[t].code in s.rooms && Served(Departed(s, t)) && Abandons(s, Departed(s, t), {})
  {
    var th, s0 := s.threads[t], s.(nextVersion := s.nextVersion + 1);
    assert Attached(s, t);
    assert Inv(s0) by { LaterVersion(s); }
    assert Served(s0) && Abandons(s, s0, {}) by { NoticedServed(s, s0, t, th); }
    var e := Gone(s.rooms[th.code], th.isHost, s.nextVersion);
    if e.hostHere || e.guestHere {
      ChangedServed(s0, t, th.(phase := Done, stamp := Some(s.nextVersion)), e);
    } else {
      ErasedServed(s0, t, th.(phase := Done));
    }
  }

  lemma ProceededServed(s: Registry, t: nat)
    requires Inv(s) && Served(s) && t < |s.threads| && s.threads[t].phase.Starting? && s.threads[t].code in s.rooms
    ensures Served(Proceeded(s, t)) && Abandons(s, Proceeded(s, t), {})
  {
    ErasedServed(s, t, s.threads[t].(phase := Pumping));
    ErasedServed(s, t, s.threads[t].(phase := Done));
    var s1 := Erased(s, t, s.threads[t].(phase := Pumping));
    if Proceeded(s, t) == s1.(pumps := Proceeded(s, t).pumps) { PumpedServed(s, s1, Proceeded(s, t)); }
  }

  lemma PumpedServed(s: Registry, s1: Registry, s': Registry)
    requires Served(s1) && Abandons(s, s1, {}) && s' == s1.(pumps := s'.pumps)
    ensures Served(s') && Abandons(s, s', {})
  {
    forall c | c in s'.rooms
      ensures SlotsOk(s', c)
    {
      assert SlotsOk(s1, c);
    }
    assert forall c :: Abandoned(s', c) <==> Abandoned(s1, c);
  }

  lemma ReadyServed(s: Registry, t: nat, ready: bool)
    requires Inv(s) && Served(s) && Free(s, t) && s.threads[t].phase.Reading?
    ensures s.threads[t].code in s.rooms
    ensures var s' := ReadyNoted(s, t, ready);
            Served(s') && Abandons(s, s', {})
  {
    var th := s.threads[t];
    assert Attached(s, t);
    ChangedServed(s, t, th.(said := ready), Readied(s.rooms[th.code], th.isHost, ready));
  }

  lemma LeftServed(s: Registry, t: nat)
    requires Inv(s) && Served(s) && Free(s, t) && s.threads[t].phase.Reading?
    ensures s.threads[t].code in s.rooms
    ensures Served(LoopLeft(s, t)) && Abandons(s, LoopLeft(s, t), {})
  {
    var th := s.threads[t];
    assert Attached(s, t);
    ChangedServed(s, t, th.(phase := Left), s.rooms[th.code]);
  }

  lemma ObservedServed(s: Registry, t: nat)
    requires Inv(s) && Served(s) && Free(s, t) && s.threads[t].phase.Reading?
    ensures s.threads[t].code in s.rooms
    ensures Served(Observed(s, t)) && Abandons(s, Observed(s, t), {})
  {
    var th := s.threads[t];
    assert Attached(s, t);
    var e := s.rooms[th.code];
    ChangedServed(s, t, th.(phase := HandedOver), Exited(e, th.isHost));
    ChangedServed(s, t, th.(phase := Starting), e.(started := true, agreed := Agreed(s, e)));
  }

  // ---------------------------------------------------------------- readiness

  /** A taken slot is ready exactly if its thread last said so, an empty one is not; what has
      started was agreed on. */
  ghost predicate ReadyOk(s: Registry, c: Code)
    requires c in s.rooms
  {
    var e := s.rooms[c];
    (e.hostReady <==> e.hostHere && SaysReady(s, e.host)) &&
    (e.guestReady <==> e.guestHere && e.guest.Some? && SaysReady(s, e.guest.value)) &&
    (e.guestHere ==> e.guest.Some?) && (e.started <==> e.agreed)
  }

  /** Every match was agreed on by both when it started. */
  ghost predicate Willing(s: Registry) {
    (forall c :: c in s.rooms ==> ReadyOk(s, c)) && forall i :: 0 <= i < |s.pumps| ==> s.pumps[i].agreed
  }

  /** A room that starts on the way from s to s' is one whose two occupants have agreed, and what
      is pumped is a room that had started. */
  ghost predicate StartsAgreed(s: Registry, s': Registry) {
    (forall c :: c in s'.rooms ==> StartedAgreed(s, s'.rooms[c], c)) &&
    forall i :: |s.pumps| <= i < |s'.pumps| ==> OfStarted(s, s'.pumps[i])
  }

  predicate StartedAgreed(s: Registry, e: Entry, c: Code) {
    e.started || e.agreed ==>
      c in s.rooms && e.inst == s.rooms[c].inst && (s.rooms[c].started || Agreed(s, s.rooms[c]))
  }

  ghost predicate OfStarted(s: Registry, p: Pump) {
    exists c :: c in s.rooms && s.rooms[c].started && s.rooms[c].agreed &&
      p.inst == s.rooms[c].inst && p.host == s.rooms[c].host && Some(p.guest) == s.rooms[c].guest
  }

  /** The last word of a thread is that of its last SetReady. */
  ghost predicate Words(s: Registry, s': Registry, t: nat, word: Option<bool>) {
    |s.threads| <= |s'.threads| &&
    (forall u :: 0 <= u < |s.threads| ==>
       s'.threads[u].said == if u == t && word.Some? then word.value else s.threads[u].said) &&
    forall u :: |s.threads| <= u < |s'.threads| ==> !s'.threads[u].said
  }

  /** What a step says and starts. */
  ghost predicate Heeds(s: Registry, s': Registry, step: Step) {
    StartsAgreed(s, s') &&
    match step
    case SetReady(t, ready) =>
      Words(s, s', t, if Free(s, t) && s.threads[t].phase.Reading? then Some(ready) else None)
    case _ => Words(s, s', 0, None)
  }

  /** A thread's move in its own room. */
  lemma ChangedWilling(s: Registry, t: nat, th: Thread, e: Entry)
    requires Inv(s) && Willing(s) && t < |s.threads| && Active(s.threads[t].phase)
    requires SameThread(s.threads[t], th) && th.code in s.rooms && SameOwners(s.rooms[th.code], e)
    requires Here(e, !th.isHost) == Here(s.rooms[th.code], !th.isHost)
    requires Ready(e, !th.isHost) == Ready(s.rooms[th.code], !th.isHost)
    requires Ready(e, th.isHost) <==> Here(e, th.isHost) && th.said
    requires (Here(e, th.isHost) ==> Here(s.rooms[th.code], th.isHost)) && (e.started <==> e.agreed)
    ensures Willing(Changed(s, t, th, e))
  {
    var s' := Changed(s, t, th, e);
    assert Attached(s, t);
    forall c | c in s'.rooms
      ensures ReadyOk(s', c)
    {
      assert ReadyOk(s, c) && EntryOk(s, c);
      if c != th.code { OtherOwners(s, t, c); }
    }
  }

  lemma ErasedWilling(s: Registry, t: nat, th: Thread)
    requires Inv(s) && Willing(s) && t < |s.threads| && SameThread(s.threads[t], th) && th.said == s.threads[t].said
    ensures Willing(Erased(s, t, th))
  {
    var s' := Erased(s, t, th);
    forall c | c in s'.rooms
      ensures ReadyOk(s', c)
    {
      assert ReadyOk(s, c) && EntryOk(s, c);
      OtherOwners(s, t, c);
    }
  }

  lemma ReadyWilling(s: Registry, t: nat, ready: bool)
    requires Inv(s) && Willing(s) && Free(s, t) && s.threads[t].phase.Reading?
    ensures s.threads[t].code in s.rooms && Willing(ReadyNoted(s, t, ready))
    ensures StartsAgreed(s, ReadyNoted(s, t, ready)) && Words(s, ReadyNoted(s, t, ready), t, Some(ready))
  {
    var th := s.threads[t];
    assert Attached(s, t);
    assert ReadyOk(s, th.code);
    ChangedWilling(s, t, th.(said := ready), Readied(s.rooms[th.code], th.isHost, ready));
  }

  lemma LeftWilling(s: Registry, t: nat)
    requires Inv(s) && Willing(s) && Free(s, t) && s.threads[t].phase.Reading?
    ensures s.threads[t].code in s.rooms && Willing(LoopLeft(s, t))
    ensures StartsAgreed(s, LoopLeft(s, t)) && Words(s, LoopLeft(s, t), t, None)
  {
    var th := s.threads[t];
    assert Attached(s, t);
    assert ReadyOk(s, th.code);
    ChangedWilling(s, t, th.(phase := Left), s.rooms[th.code]);
  }

  /** A room that has not started does so exactly if both are here and last said ready. */
  lemma ObservedWilling(s: Registry, t: nat)
    requires Inv(s) && Willing(s) && Free(s, t) && s.threads[t].phase.Reading?
    ensures s.threads[t].code in s.rooms && Willing(Observed(s, t))
    ensures StartsAgreed(s, Observed(s, t)) && Words(s, Observed(s, t), t, None)
    ensures var c := s.threads[t].code;
            c in Observed(s, t).rooms &&
            (Observed(s, t).rooms[c].started <==> s.rooms[c].started || Agreed(s, s.rooms[c]))
  {
    var th := s.threads[t];
    assert Attached(s, t);
    var e := s.rooms[th.code];
    assert ReadyOk(s, th.code);
    if e.started {
      ChangedWilling(s, t, th.(phase := HandedOver), Exited(e, th.isHost));
    } else if Agreed(s, e) {
      ChangedWilling(s, t, th.(phase := Starting), e.(started := true, agreed := Agreed(s, e)));
    }
  }

  lemma DepartedWilling(s: Registry, t: nat)
    requires Inv(s) && Willing(s) && Free(s, t) && s.threads[t].phase.Left?
    ensures s.threads[t].code in s.rooms && Willing(Departed(s, t))
    ensures StartsAgreed(s, Departed(s, t)) && Words(s, Departed(s, t), t, None)
  {
    var th, s0 := s.threads[t], s.(nextVersion := s.nextVersion + 1);
    assert Attached(s, t);
    assert ReadyOk(s, th.code);
    LaterVersion(s);
    assert Willing(s0) by { NoticedWilling(s, s0, t, th); }
    var e := Gone(s.rooms[th.code], th.isHost, s.nextVersion);
    if e.hostHere || e.guestHere {
      ChangedWilling(s0, t, th.(phase := Done, stamp := Some(s.nextVersion)), e);
    } else {
      ErasedWilling(s0, t, th.(phase := Done));
    }
  }

  lemma ProceededWilling(s: Registry, t: nat)
    requires Inv(s) && Willing(s) && t < |s.threads| && s.threads[t].phase.Starting? && s.threads[t].code in s.rooms
    ensures Willing(Proceeded(s, t)) && StartsAgreed(s, Proceeded(s, t)) && Words(s, Proceeded(s, t), t, None)
  {
    assert Attached(s, t) && ReadyOk(s, s.threads[t].code);
    ErasedWilling(s, t, s.threads[t].(phase := Pumping));
    ErasedWilling(s, t, s.threads[t].(phase := Done));
    forall c | c in Proceeded(s, t).rooms
      ensures ReadyOk(Proceeded(s, t), c)
    {
      assert ReadyOk(Erased(s, t, s.threads[t].(phase := Pumping)), c);
      assert ReadyOk(Erased(s, t, s.threads[t].(phase := Done)), c);
    }
  }

  lemma CreatedWilling(s: Registry, code: Code)
    requires Inv(s) && Willing(s) && code !in s.rooms
    ensures Willing(Created(s, code)) && StartsAgreed(s, Created(s, code)) && Words(s, Created(s, code), 0, None)
  {
    var s' := Created(s, code);
    forall c | c in s'.rooms
      ensures ReadyOk(s', c)
    {
      if c != code { assert ReadyOk(s, c) && EntryOk(s, c); }
    }
  }

  lemma JoinedWilling(s: Registry, code: Code)
    requires Inv(s) && Willing(s) && CanJoin(s, code)
    ensures Willing(Joined(s, code)) && StartsAgreed(s, Joined(s, code)) && Words(s, Joined(s, code), 0, None)
  {
    var s' := Joined(s, code);
    forall c | c in s'.rooms
      ensures ReadyOk(s', c)
    {
      assert ReadyOk(s, c) && EntryOk(s, c);
    }
  }

  /** What leaves rooms alone and nobody's word is any different. */
  lemma NoticedWilling(s: Registry, s': Registry, t: nat, th: Thread)
    requires Willing(s) && t < |s.threads| && th.said == s.threads[t].said
    requires s'.rooms == s.rooms && s'.threads == s.threads[t := th] && s'.pumps == s.pumps
    ensures Willing(s') && StartsAgreed(s, s') && Words(s, s', t, None)
  {
    forall c | c in s'.rooms
      ensures ReadyOk(s', c)
    {
      assert ReadyOk(s, c);
    }
  }

  lemma GreetedWilling(s: Registry, t: nat)
    requires Willing(s) && HoldsGate(s, t)
    ensures Willing(JoinChecked(s, t)) && StartsAgreed(s, JoinChecked(s, t)) && Words(s, JoinChecked(s, t), t, None)
  {
    var phase := if IsCurrent(s, t) then Reading else Done;
    NoticedWilling(s, JoinChecked(s, t), t, s.threads[t].(phase := phase, stamp := None));
  }

  /** Who is forgotten in a step. */
  function Forgotten(s: Registry, step: Step): set<Code> {
    match step
    case CheckEntry(t) =>
      if HoldsGate(s, t) && s.threads[t].phase.Joining? && !IsCurrent(s, t) then {s.threads[t].code} else {}
    case _ => {}
  }

  /** A room is created, a guest enters, the host leaves before the guest is greeted: the room
      stays forever, with a guest nobody serves. */
  lemma ForgottenGuest(code: Code)
    ensures var s0 := Registry(map[], [], map[], 0, 1, [], []);
            var s1 := SentOff(Checked(Created(s0, code), 0), 0);
            var s2 := Joined(s1, code);
            var s3 := Departed(Changed(s2, 0, s2.threads[0].(phase := Left), s2.rooms[code]), 0);
            CanJoin(s1, code) && Free(s2, 0) && HoldsGate(s3, 1) && Abandoned(JoinChecked(s3, 1), code)
  {}

  // ---------------------------------------------------------------- the registry

  /** What the threads do next, in any order. */
  datatype Step =
    | Create(code: Code)
    | Join(code: Code)
    | CheckEntry(t: nat)
    | CheckNotice(t: nat)
    | SendNotice(t: nat)
    | SetReady(t: nat, ready: bool)
    | Observe(t: nat)
    | Leave(t: nat)
    | Exit(t: nat)
    | Proceed(t: nat)

  class RoomRegistry {
    var rooms: map<Code, Entry>
    var threads: seq<Thread>
    var gates: map<Code, nat>
    var nextInst: nat
    var nextVersion: nat
    var pumps: seq<Pump>
    var sent: seq<Notice>

    function Now(): Registry
      reads this
    {
      Registry(rooms, threads, gates, nextInst, nextVersion, pumps, sent)
    }

    constructor ()
      ensures Inv(Now()) && Served(Now()) && Willing(Now()) && pumps == [] && sent == []
    {
      rooms, threads, gates, nextInst, nextVersion, pumps, sent := map[], [], map[], 0, 1, [], [];
    }

    /** handleCreate */
    method HandleCreate(code: Code)
      requires Inv(Now()) && code !in rooms
      modifies this
      ensures Inv(Now()) && Now() == Created(old(Now()), code)
    {
      CreatedKeeps(Now(), code);
      var t := |threads|;
      rooms := rooms[code := Entry(nextInst, t, None, true, false, false, false, false, false, false, nextVersion,
                                   false)];
      threads := threads + [Thread(code, true, nextInst, Reading, Some(nextVersion), false)];
      nextInst := nextInst + 1;
      nextVersion := nextVersion + 1;
    }

    /** handleJoin: in, while nobody else can send to this room. */
    method HandleJoin(code: Code)
      requires Inv(Now()) && CanJoin(Now(), code)
      modifies this
      ensures Inv(Now()) && Now() == Joined(old(Now()), code)
    {
      JoinedKeeps(Now(), code);
      var t, e := |threads|, rooms[code];
      rooms := rooms[code := e.(guest := Some(t), guestHere := true, version := nextVersion)];
      threads := threads + [Thread(code, false, e.inst, Joining, Some(nextVersion), false)];
      gates := gates[code := t];
      nextVersion := nextVersion + 1;
    }

    /** The rest of handleJoin: greet both, unless the room has changed in between. */
    method Greet(t: nat)
      requires Inv(Now()) && HoldsGate(Now(), t) && threads[t].phase.Joining?
      modifies this
      ensures Inv(Now()) && Now() == JoinChecked(old(Now()), t)
    {
      JoinCheckedKeeps(Now(), t);
      var th := threads[t];
      if IsCurrent(Now(), t) {
        sent := sent + [NoticeOf(th), NoticeOf(th)];
        threads := threads[t := th.(phase := Reading, stamp := None)];
      } else {
        assert sent + [] == sent;
        threads := threads[t := th.(phase := Done, stamp := None)];
      }
      gates := gates - {th.code};
    }

    /** sendRoomInfoIfCurrent_: the version check under the gate. */
    method CheckVersion(t: nat)
      requires Inv(Now()) && t < |threads| && threads[t].stamp.Some? && threads[t].code !in gates
      modifies this
      ensures Inv(Now()) && Now() == Checked(old(Now()), t)
    {
      CheckedKeeps(Now(), t);
      if IsCurrent(Now(), t) {
        gates := gates[threads[t].code := t];
      } else {
        threads := threads[t := threads[t].(stamp := None)];
      }
    }

    /** The send itself, and the gate is free again. */
    method SendRoomInfo(t: nat)
      requires Inv(Now()) && HoldsGate(Now(), t)
      modifies this
      ensures Inv(Now()) && Now() == SentOff(old(Now()), t)
    {
      SentOffKeeps(Now(), t);
      var th := threads[t];
      sent := sent + [NoticeOf(th)];
      threads := threads[t := th.(stamp := None)];
      gates := gates - {th.code};
    }

    method NoteReady(t: nat, ready: bool)
      requires Inv(Now()) && Free(Now(), t) && threads[t].phase.Reading?
      modifies this`rooms, this`threads
      ensures Inv(Now()) && old(threads[t].code in rooms) && Now() == ReadyNoted(old(Now()), t, ready)
    {
      ReadyKeeps(Now(), t, ready);
      var th := threads[t];
      rooms := rooms[th.code := Readied(rooms[th.code], th.isHost, ready)];
      threads := threads[t := th.(said := ready)];
    }

    /** The state check at the end of each turn of roomLoop_. */
    method ObserveRoom(t: nat)
      requires Inv(Now()) && Willing(Now()) && Free(Now(), t) && threads[t].phase.Reading?
      modifies this
      ensures Inv(Now()) && old(threads[t].code in rooms) && Now() == Observed(old(Now()), t)
      ensures Willing(Now()) && StartsAgreed(old(Now()), Now()) && Words(old(Now()), Now(), t, None)
      ensures var c := old(threads[t].code);
              c in rooms && (rooms[c].started <==> old(rooms)[c].started || Agreed(old(Now()), old(rooms)[c]))
    {
      ObservedKeeps(Now(), t);
      ObservedWilling(Now(), t);
      var th := threads[t];
      var e := rooms[th.code];
      if e.started {
        rooms := rooms[th.code := Exited(e, th.isHost)];
        threads := threads[t := th.(phase := HandedOver)];
      } else if e.hostHere && e.guestHere && e.hostReady && e.guestReady {
        rooms := rooms[th.code := e.(started := true, agreed := Agreed(Now(), e))];
        threads := threads[t := th.(phase := Starting)];
      }
    }

    /** Out of the read loop: the socket closed, the player left, or time is up. */
    method LeaveLoop(t: nat)
      requires Inv(Now()) && Free(Now(), t) && threads[t].phase.Reading?
      modifies this`threads
      ensures Inv(Now()) && t < |old(threads)| && threads == old(threads)[t := old(threads)[t].(phase := Left)]
      ensures old(threads)[t].code in rooms && Now() == LoopLeft(old(Now()), t)
    {
      LeftKeeps(Now(), t);
      var th := threads[t];
      assert rooms[th.code := rooms[th.code]] == rooms;
      threads := threads[t := th.(phase := Left)];
    }

    /** The exit section: gone from the room, which goes with its last occupant; whoever
        stays is to be told. */
    method ExitRoom(t: nat)
      requires Inv(Now()) && Free(Now(), t) && threads[t].phase.Left?
      modifies this
      ensures Inv(Now()) && old(threads[t].code in rooms) && Now() == Departed(old(Now()), t)
    {
      DepartedKeeps(Now(), t);
      Vacate(t);
    }

    method Vacate(t: nat)
      requires t < |threads| && threads[t].code in rooms
      modifies this
      ensures Now() == Departed(old(Now()), t)
    {
      var th := threads[t];
      var e := Gone(rooms[th.code], th.isHost, nextVersion);
      if e.hostHere || e.guestHere {
        rooms := rooms[th.code := e];
        threads := threads[t := th.(phase := Done, stamp := Some(nextVersion))];
      } else {
        rooms := rooms - {th.code};
        threads := threads[t := th.(phase := Done)];
      }
      nextVersion := nextVersion + 1;
    }

    /** The starter, once the other is out of its read loop: startPump, if both are here. */
    method ProceedStarter(t: nat)
      requires Inv(Now()) && t < |threads| && threads[t].phase.Starting?
      requires threads[t].code in rooms && MayProceed(rooms[threads[t].code], threads[t].isHost)
      modifies this
      ensures Inv(Now()) && Now() == Proceeded(old(Now()), t)
    {
      ProceededKeeps(Now(), t);
      var th := threads[t];
      var e := rooms[th.code];
      if e.hostHere && e.guestHere && e.guest.Some? {
        pumps := pumps + [Pump(e.inst, e.host, e.guest.value, e.agreed)];
        threads := threads[t := th.(phase := Pumping)];
      } else {
        threads := threads[t := th.(phase := Done)];
      }
      rooms := rooms - {th.code};
    }

    /** One critical section of one thread; a step that is not enabled waits. */
    method Take(step: Step)
      requires Inv(Now()) && Served(Now()) && Willing(Now())
      modifies this
      ensures Inv(Now()) && old(pumps) <= pumps && old(sent) <= sent
      ensures Willing(Now()) && Heeds(old(Now()), Now(), step)
      ensures Served(Now()) && Abandons(old(Now()), Now(), Forgotten(old(Now()), step))
    {
      match step
      case Create(code) =>
        if code !in rooms {
          CreatedServed(Now(), code);
          CreatedWilling(Now(), code);
          HandleCreate(code);
        }
      case Join(code) =>
        if CanJoin(Now(), code) {
          JoinedServed(Now(), code);
          JoinedWilling(Now(), code);
          HandleJoin(code);
        }
      case CheckEntry(t) =>
        if HoldsGate(Now(), t) && threads[t].phase.Joining? {
          GreetedServed(Now(), t);
          GreetedWilling(Now(), t);
          Greet(t);
        }
      case CheckNotice(t) =>
        if t < |threads| && threads[t].stamp.Some? && !threads[t].phase.Joining? && threads[t].code !in gates {
          var th := if IsCurrent(Now(), t) then threads[t] else threads[t].(stamp := None);
          NoticedServed(Now(), Checked(Now(), t), t, th);
          NoticedWilling(Now(), Checked(Now(), t), t, th);
          CheckVersion(t);
        }
      case SendNotice(t) =>
        if HoldsGate(Now(), t) && !threads[t].phase.Joining? {
          NoticedServed(Now(), SentOff(Now(), t), t, threads[t].(stamp := None));
          NoticedWilling(Now(), SentOff(Now(), t), t, threads[t].(stamp := None));
          SendRoomInfo(t);
        }
      case _ => Move(step);
    }

    /** The sections of the read loop. */
    method Move(step: Step)
      requires Inv(Now()) && Served(Now()) && Willing(Now())
      modifies this
      ensures Inv(Now()) && old(pumps) <= pumps && old(sent) <= sent
      ensures Willing(Now()) && Heeds(old(Now()), Now(), step)
      ensures Served(Now()) && Abandons(old(Now()), Now(), {})
    {
      match step
      case SetReady(t, ready) =>
        if Free(Now(), t) && threads[t].phase.Reading? {
          ReadyServed(Now(), t, ready);
          ReadyWilling(Now(), t, ready);
          NoteReady(t, ready);
        }
      case Observe(t) =>
        if Free(Now(), t) && threads[t].phase.Reading? {
          ObservedServed(Now(), t);
          ObserveRoom(t);
        }
      case Leave(t) =>
        if Free(Now(), t) && threads[t].phase.Reading? {
          LeftServed(Now(), t);
          LeftWilling(Now(), t);
          LeaveLoop(t);
        }
      case _ => End(step);
    }

    /** ... and after it. */
    method End(step: Step)
      requires Inv(Now()) && Served(Now()) && Willing(Now()) && !step.SetReady?
      modifies this
      ensures Inv(Now()) && old(pumps) <= pumps && old(sent) <= sent
      ensures Willing(Now()) && Heeds(old(Now()), Now(), step)
      ensures Served(Now()) && Abandons(old(Now()), Now(), {})
    {
      match step
      case Exit(t) =>
        if Free(Now(), t) && threads[t].phase.Left? {
          DepartedServed(Now(), t);
          DepartedWilling(Now(), t);
          ExitRoom(t);
        }
      case Proceed(t) =>
        if t < |threads| && threads[t].phase.Starting? && threads[t].code in rooms &&
           MayProceed(rooms[threads[t].code], threads[t].isHost) {
          ProceededServed(Now(), t);
          ProceededWilling(Now(), t);
          ProceedStarter(t);
        }
      case _ =>
    }

    /** In every interleaving each room is pumped at most once, by threads that have left
        their read loops, notices are in order, and a room that was abandoned stays as it is. */
    method Run(schedule: seq<Step>)
      requires Inv(Now()) && Served(Now()) && Willing(Now())
      modifies this
      ensures Inv(Now()) && Served(Now()) && old(pumps) <= pumps && old(sent) <= sent
      ensures Willing(Now()) && forall i :: 0 <= i < |pumps| ==> pumps[i].agreed
      ensures forall c :: old(Abandoned(Now(), c)) ==> Abandoned(Now(), c) && rooms[c] == old(rooms)[c]
    {
      var i := 0;
      while i < |schedule|
        invariant Inv(Now()) && Served(Now()) && Willing(Now()) && old(pumps) <= pumps && old(sent) <= sent
        invariant forall c :: old(Abandoned(Now(), c)) ==> Abandoned(Now(), c) && rooms[c] == old(rooms)[c]
      {
        Take(schedule[i]);
        i := i + 1;
      }
    }
  }
}
