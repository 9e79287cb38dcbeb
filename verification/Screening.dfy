/** The relay's forwarding filter: which of a client's frames may reach its opponent.

    The unranked path passes every whole frame except the server-only types, without looking
    at checksums, and pushes adjacent survivors in one piece; the ranked path also withholds
    MATCH_SUMMARY and frames without a type byte.  Both drop the rest of the buffer at an
    oversized length. */
module Screening {
  import opened Bytes
  import opened Framing

  predicate Passes(ranked: bool, u: seq<byte>) {
    if |u| < 7 then !ranked
    else !IsServerOnly(u[2]) && !(ranked && u[2] == MATCH_SUMMARY)
  }

  function Screened(ranked: bool, us: seq<seq<byte>>): seq<seq<byte>> {
    if us == [] then []
    else (if Passes(ranked, us[0]) then [us[0]] else []) + Screened(ranked, us[1..])
  }

  lemma {:induction false} ScreenedPass(ranked: bool, us: seq<seq<byte>>)
    requires AllUnits(us)
    ensures AllUnits(Screened(ranked, us))
    ensures forall i :: 0 <= i < |Screened(ranked, us)| ==> Passes(ranked, Screened(ranked, us)[i])
  {
    if us != [] {
      ScreenedPass(ranked, us[1..]);
    }
  }

  lemma {:induction false} ScreenedAppend(ranked: bool, us: seq<seq<byte>>, vs: seq<seq<byte>>)
    ensures Screened(ranked, us + vs) == Screened(ranked, us) + Screened(ranked, vs)
  {
    if us == [] {
      assert us + vs == vs;
    } else {
      ScreenedAppend(ranked, us[1..], vs);
      assert (us + vs)[1..] == us[1..] + vs;
      var head := if Passes(ranked, us[0]) then [us[0]] else [];
      Associates(head, Screened(ranked, us[1..]), Screened(ranked, vs));
    }
  }

  /** The bytes one pass over a receive buffer lets through, and what stays buffered. */
  function Out(ranked: bool, s: seq<byte>): seq<byte> {
    Concat(Screened(ranked, Split(s).units))
  }

  function Left(s: seq<byte>): seq<byte> {
    if Split(s).ok then Split(s).rest else []
  }

  // ---------------------------------------------------------------- frame at a time

  /** The same filter applied to parsed frames, one frame at a time. */
  function KeepFrames(ranked: bool, fs: seq<Frame>): seq<Frame> {
    if fs == [] then [] else KeepFrame(ranked, fs[0]) + KeepFrames(ranked, fs[1..])
  }

  function KeepFrame(ranked: bool, f: Frame): seq<Frame> {
    if IsServerOnly(f.ty) || (ranked && f.ty == MATCH_SUMMARY) then [] else [f]
  }

  lemma {:induction false} KeepAppend(ranked: bool, fs: seq<Frame>, gs: seq<Frame>)
    ensures KeepFrames(ranked, fs + gs) == KeepFrames(ranked, fs) + KeepFrames(ranked, gs)
  {
    if fs == [] {
      assert fs + gs == gs;
    } else {
      KeepAppend(ranked, fs[1..], gs);
      assert (fs + gs)[1..] == fs[1..] + gs;
      Associates(KeepFrame(ranked, fs[0]), KeepFrames(ranked, fs[1..]), KeepFrames(ranked, gs));
    }
  }

  lemma KeepDecode(ranked: bool, u: seq<byte>)
    ensures Passes(ranked, u) ==> KeepFrames(ranked, Decode(u)) == Decode(u)
    ensures !Passes(ranked, u) ==> KeepFrames(ranked, Decode(u)) == []
  {
    var d := Decode(u);
    if d != [] {
      assert d == [d[0]] && d[1..] == [];
      assert KeepFrames(ranked, d[1..]) == [];
      assert [d[0]] + [] == [d[0]];
    }
  }

  /** Screening raw units is screening the frames they carry. */
  lemma {:induction false} ScreenedFrames(ranked: bool, us: seq<seq<byte>>)
    ensures FramesOf(Screened(ranked, us)) == KeepFrames(ranked, FramesOf(us))
  {
    if us == [] {
    } else {
      ScreenedFrames(ranked, us[1..]);
      KeepDecode(ranked, us[0]);
      KeepAppend(ranked, Decode(us[0]), FramesOf(us[1..]));
      var rest := Screened(ranked, us[1..]);
      if Passes(ranked, us[0]) {
        FramesOfAppend([us[0]], rest);
        FramesOfOne(us[0]);
      } else {
        assert [] + rest == rest;
      }
    }
  }

  /** What is let through is whole frames and nothing else, and parses to exactly the kept
      frames; malformed input (bad checksums, oversized lengths) included. */
  lemma OutIsSafe(ranked: bool, s: seq<byte>)
    ensures WholeFrames(Out(ranked, s))
    ensures Parse(Out(ranked, s)) == Parsed(true, KeepFrames(ranked, Parse(s).frames), [])
  {
    SplitUnits(s);
    ScreenedPass(ranked, Split(s).units);
    WholeFramesOfUnits(Screened(ranked, Split(s).units));
    ScreenedFrames(ranked, Split(s).units);
  }

  /** No unit let through has a forbidden type byte, whatever its checksum. */
  lemma OutHasNoServerFrame(ranked: bool, s: seq<byte>)
    ensures forall i :: 0 <= i < |Split(Out(ranked, s)).units| ==> Passes(ranked, Split(Out(ranked, s)).units[i])
  {
    SplitUnits(s);
    ScreenedPass(ranked, Split(s).units);
    WholeFramesOfUnits(Screened(ranked, Split(s).units));
  }

  /** Of the types of net/framing.h exactly those the server alone may originate are withheld,
      and the account of a ranked match; every other frame passes byte for byte. */
  lemma OneFrameScreened(ranked: bool, ty: byte, payload: seq<byte>)
    requires |payload| <= MAX_PAYLOAD
    ensures var u := BuildFrame(ty, payload);
            Out(ranked, u) == (if ty in {12, 15, 19, 21} || (ranked && ty == 18) then [] else u) && Left(u) == []
  {
    var u := BuildFrame(ty, payload);
    BuildDecode(ty, payload);
    UnitThen(u, []);
    var us := [u];
    assert u + [] == u && us[1..] == [] && Split([]) == Cut([], [], true);
    assert Screened(ranked, us[1..]) == [] && Concat(us[1..]) == [];
  }

  // ---------------------------------------------------------------- under every chunking

  datatype Pipe = Pipe(rx: seq<byte>, sent: seq<byte>)

  /** The forwarding stage of one connection after a list of reads. */
  function Forwarded(ranked: bool, chunks: seq<seq<byte>>): Pipe {
    if chunks == [] then Pipe([], [])
    else
      var p := Forwarded(ranked, chunks[..|chunks| - 1]);
      var rx := p.rx + chunks[|chunks| - 1];
      Pipe(Left(rx), p.sent + Out(ranked, rx))
  }

  ghost predicate Clean(ranked: bool, sent: seq<byte>) {
    WholeFrames(sent) &&
    forall i :: 0 <= i < |Split(sent).units| ==> Passes(ranked, Split(sent).units[i])
  }

  lemma CleanAppend(ranked: bool, a: seq<byte>, b: seq<byte>)
    requires Clean(ranked, a) && Clean(ranked, b)
    ensures Clean(ranked, a + b)
  {
    WholeFramesAppend(a, b);
  }

  /** Safety for every input under every chunking: the opponent's stream stays frame-aligned
      and free of withheld types after any sequence of reads, even past oversized lengths. */
  lemma {:induction false} ForwardedIsClean(ranked: bool, chunks: seq<seq<byte>>)
    ensures Clean(ranked, Forwarded(ranked, chunks).sent)
  {
    if chunks == [] {
      assert Split([]) == Cut([], [], true);
    } else {
      var init := chunks[..|chunks| - 1];
      ForwardedIsClean(ranked, init);
      var rx := Forwarded(ranked, init).rx + chunks[|chunks| - 1];
      OutIsSafe(ranked, rx);
      OutHasNoServerFrame(ranked, rx);
      CleanAppend(ranked, Forwarded(ranked, init).sent, Out(ranked, rx));
    }
  }

  /** Exactness: as long as no oversized length has appeared, batching and chunking are
      invisible; the opponent has been sent the screened whole frames of the entire stream. */
  lemma {:induction false} ForwardedIsExact(ranked: bool, chunks: seq<seq<byte>>)
    requires Split(Flatten(chunks)).ok
    ensures Forwarded(ranked, chunks) == Pipe(Split(Flatten(chunks)).rest, Out(ranked, Flatten(chunks)))
  {
    if chunks == [] {
      assert Split([]) == Cut([], [], true);
    } else {
      var init, last := chunks[..|chunks| - 1], chunks[|chunks| - 1];
      SplitAppend(Flatten(init), last);
      ForwardedIsExact(ranked, init);
      OutAppend(ranked, Flatten(init), last);
    }
  }

  lemma OutAppend(ranked: bool, a: seq<byte>, b: seq<byte>)
    requires Split(a).ok
    ensures Out(ranked, a + b) == Out(ranked, a) + Out(ranked, Split(a).rest + b)
    ensures Left(a + b) == Left(Split(a).rest + b)
  {
    SplitAppend(a, b);
    var us, vs := Split(a).units, Split(Split(a).rest + b).units;
    ScreenedAppend(ranked, us, vs);
    ConcatAppend(Screened(ranked, us), Screened(ranked, vs));
  }

  /** ... hence the opponent parses the client's own frames minus the withheld ones. */
  lemma ForwardedFrames(ranked: bool, chunks: seq<seq<byte>>)
    requires Parse(Flatten(chunks)).ok
    ensures Parse(Forwarded(ranked, chunks).sent) ==
            Parsed(true, KeepFrames(ranked, Parse(Flatten(chunks)).frames), [])
  {
    ForwardedIsExact(ranked, chunks);
    OutIsSafe(ranked, Flatten(chunks));
  }

  // ---------------------------------------------------------------- the loop's bookkeeping

  /** State of the batched loop over rx: bytes already pushed, the run rx[sent..pos] of
      survivors not pushed yet, and the part from pos on not looked at. */
  ghost predicate ScreenedUpTo(ranked: bool, rx: seq<byte>, sent: nat, pos: nat, pushed: seq<byte>) {
    sent <= pos <= |rx| &&
    pushed + rx[sent..pos] + Out(ranked, rx[pos..]) == Out(ranked, rx) &&
    Left(rx[pos..]) == Left(rx) &&
    Split(rx[pos..]).ok == Split(rx).ok &&
    WholeFrames(rx[sent..pos])
  }

  lemma ScreenStart(ranked: bool, rx: seq<byte>)
    ensures ScreenedUpTo(ranked, rx, 0, 0, [])
  {
    assert rx[0..] == rx && rx[0..0] == [];
    assert Split([]) == Cut([], [], true);
    assert [] + [] + Out(ranked, rx) == Out(ranked, rx);
  }

  lemma OutAtUnit(ranked: bool, s: seq<byte>, n: nat)
    requires Scan(s) == Whole(n)
    ensures IsUnit(s[..n])
    ensures Out(ranked, s) == (if Passes(ranked, s[..n]) then s[..n] else []) + Out(ranked, s[n..])
    ensures Left(s) == Left(s[n..]) && Split(s).ok == Split(s[n..]).ok
  {
    UnitAtHead(s);
    var u, t := s[..n], Split(s[n..]).units;
    ScreenedAppend(ranked, [u], t);
    ghost var none: seq<seq<byte>> := [u][1..];
    assert none == [];
    assert Concat([u]) == u + Concat(none) && u + [] == u;
    ConcatAppend(Screened(ranked, [u]), Screened(ranked, t));
  }

  /** Extending the run by one surviving frame. */
  lemma ScreenKeep(ranked: bool, rx: seq<byte>, sent: nat, pos: nat, pushed: seq<byte>, n: nat, next: nat)
    requires ScreenedUpTo(ranked, rx, sent, pos, pushed)
    requires next == pos + n && next <= |rx| && Scan(rx[pos..]) == Whole(n) && Passes(ranked, rx[pos..next])
    ensures ScreenedUpTo(ranked, rx, sent, next, pushed)
  {
    SliceBetween(rx, pos, n, next);
    OutAtUnit(ranked, rx[pos..], n);
    var run, u, rest := rx[sent..pos], rx[pos..next], Out(ranked, rx[next..]);
    assert rx[sent..next] == run + u;
    Regroup(pushed, run, u, rest);
    OneUnit(u);
    WholeFramesAppend(run, u);
  }

  lemma Regroup<T>(a: seq<T>, b: seq<T>, c: seq<T>, d: seq<T>)
    ensures a + b + (c + d) == a + (b + c) + d
  {}

  lemma OneUnit(u: seq<byte>)
    requires IsUnit(u)
    ensures WholeFrames(u) && Split(u).units == [u]
  {
    assert u[..|u|] == u && u[|u|..] == [];
    assert Split([]) == Cut([], [], true);
    var none: seq<seq<byte>> := [];
    assert [u] + none == [u];
  }

  /** Skipping one withheld frame once the run before it has been pushed. */
  lemma ScreenSkip(ranked: bool, rx: seq<byte>, sent: nat, pos: nat, pushed: seq<byte>, n: nat, next: nat)
    requires ScreenedUpTo(ranked, rx, sent, pos, pushed)
    requires next == pos + n && next <= |rx| && Scan(rx[pos..]) == Whole(n) && !Passes(ranked, rx[pos..next])
    ensures ScreenedUpTo(ranked, rx, next, next, pushed + rx[sent..pos])
  {
    SliceBetween(rx, pos, n, next);
    OutAtUnit(ranked, rx[pos..], n);
    var run, rest := rx[sent..pos], Out(ranked, rx[next..]);
    assert rx[next..next] == [];
    assert [] + rest == rest;
    assert pushed + run + [] == pushed + run;
    assert Split([]) == Cut([], [], true);
  }

  /** The loop ends where no whole frame starts; what is pending is then all there is. */
  lemma ScreenStop(ranked: bool, rx: seq<byte>, sent: nat, pos: nat, pushed: seq<byte>)
    requires ScreenedUpTo(ranked, rx, sent, pos, pushed)
    requires !Scan(rx[pos..]).Whole?
    ensures pushed + rx[sent..pos] == Out(ranked, rx)
    ensures Left(rx) == if Scan(rx[pos..]) == Oversized then [] else rx[pos..]
  {
    assert Screened(ranked, []) == [];
    assert Out(ranked, rx[pos..]) == [];
    assert pushed + rx[sent..pos] + [] == pushed + rx[sent..pos];
  }

  // ---------------------------------------------------------------- the loop as a function

  predicate PassesAt(ranked: bool, rx: seq<byte>, pos: nat, total: nat)
    requires pos + total <= |rx|
  {
    if total < 7 then !ranked
    else !IsServerOnly(rx[pos + 2]) && !(ranked && rx[pos + 2] == MATCH_SUMMARY)
  }

  /** The batched loop by position: what it will have pushed and left when it ends. */
  ghost function ScreenFrom(ranked: bool, rx: seq<byte>, sent: nat, pos: nat, pushed: seq<byte>): Pipe
    requires sent <= pos <= |rx|
    decreases |rx| - pos
  {
    if pos + 2 > |rx| then Pipe(rx[pos..], pushed + rx[sent..pos])
    else
      var len := LengthAt(rx, pos);
      if len > MAX_PAYLOAD + 1 then Pipe([], pushed + rx[sent..pos])
      else if pos + len + 6 > |rx| then Pipe(rx[pos..], pushed + rx[sent..pos])
      else if PassesAt(ranked, rx, pos, len + 6) then ScreenFrom(ranked, rx, sent, pos + len + 6, pushed)
      else ScreenFrom(ranked, rx, pos + len + 6, pos + len + 6, pushed + rx[sent..pos])
  }

  /** The run of survivors not pushed yet is whole frames, at every turn of the loop. */
  ghost predicate RunIsWhole(rx: seq<byte>, sent: nat, pos: nat) {
    sent <= pos <= |rx| && WholeFrames(rx[sent..pos])
  }

  lemma RunGrows(rx: seq<byte>, sent: nat, pos: nat, next: nat)
    requires RunIsWhole(rx, sent, pos) && pos + 2 <= |rx| && LengthAt(rx, pos) <= MAX_PAYLOAD + 1
    requires next == pos + (LengthAt(rx, pos) + 6) && next <= |rx|
    ensures RunIsWhole(rx, sent, next) && RunIsWhole(rx, pos, next) && RunIsWhole(rx, next, next)
  {
    RunOne(rx, pos, next);
    RunJoin(rx, sent, pos, next);
    RunEmpty(rx, next);
  }

  lemma RunOne(rx: seq<byte>, pos: nat, next: nat)
    requires pos + 2 <= |rx| && LengthAt(rx, pos) <= MAX_PAYLOAD + 1
    requires next == pos + (LengthAt(rx, pos) + 6) && next <= |rx|
    ensures RunIsWhole(rx, pos, next)
  {
    var n := LengthAt(rx, pos) + 6;
    ScanAt(rx, pos);
    SliceBetween(rx, pos, n, next);
    UnitAtHead(rx[pos..]);
    OneUnit(rx[pos..next]);
  }

  lemma RunJoin(rx: seq<byte>, a: nat, b: nat, c: nat)
    requires RunIsWhole(rx, a, b) && RunIsWhole(rx, b, c)
    ensures RunIsWhole(rx, a, c)
  {
    WholeFramesAppend(rx[a..b], rx[b..c]);
    assert rx[a..c] == rx[a..b] + rx[b..c];
  }

  lemma RunEmpty(rx: seq<byte>, pos: nat)
    requires pos <= |rx|
    ensures RunIsWhole(rx, pos, pos)
  {
    assert rx[pos..pos] == [];
    assert Split([]) == Cut([], [], true);
  }

  lemma {:induction false} ScreenFromIsOut(ranked: bool, rx: seq<byte>, sent: nat, pos: nat, pushed: seq<byte>)
    requires ScreenedUpTo(ranked, rx, sent, pos, pushed)
    ensures ScreenFrom(ranked, rx, sent, pos, pushed) == Pipe(Left(rx), Out(ranked, rx))
    decreases |rx| - pos
  {
    if pos + 2 > |rx| {
      ScreenStop(ranked, rx, sent, pos, pushed);
    } else {
      ScanAt(rx, pos);
      if Scan(rx[pos..]).Whole? {
        var n := LengthAt(rx, pos) + 6;
        ScreenFromNext(ranked, rx, sent, pos, pushed, n, pos + n);
      } else {
        ScreenStop(ranked, rx, sent, pos, pushed);
      }
    }
  }

  lemma {:induction false} ScreenFromNext(ranked: bool, rx: seq<byte>, sent: nat, pos: nat, pushed: seq<byte>,
                                          n: nat, next: nat)
    requires ScreenedUpTo(ranked, rx, sent, pos, pushed)
    requires pos < next <= |rx| && next == pos + n && Scan(rx[pos..]) == Whole(n)
    ensures ScreenFrom(ranked, rx, sent, pos, pushed) == Pipe(Left(rx), Out(ranked, rx))
    decreases |rx| - pos, 0
  {
    ScreenFromUnfold(ranked, rx, sent, pos, pushed, n, next);
    if Passes(ranked, rx[pos..next]) {
      ScreenKeep(ranked, rx, sent, pos, pushed, n, next);
      ScreenFromIsOut(ranked, rx, sent, next, pushed);
    } else {
      ScreenSkip(ranked, rx, sent, pos, pushed, n, next);
      ScreenFromIsOut(ranked, rx, next, next, pushed + rx[sent..pos]);
    }
  }

  lemma ScreenFromUnfold(ranked: bool, rx: seq<byte>, sent: nat, pos: nat, pushed: seq<byte>, n: nat, next: nat)
    requires sent <= pos <= next <= |rx| && next == pos + n && Scan(rx[pos..]) == Whole(n)
    ensures ScreenFrom(ranked, rx, sent, pos, pushed) ==
            if Passes(ranked, rx[pos..next]) then ScreenFrom(ranked, rx, sent, next, pushed)
            else ScreenFrom(ranked, rx, next, next, pushed + rx[sent..pos])
  {
    ScanAt(rx, pos);
    assert PassesAt(ranked, rx, pos, n) == Passes(ranked, rx[pos..next]);
  }

  lemma ScreenFromStart(ranked: bool, rx: seq<byte>)
    ensures ScreenFrom(ranked, rx, 0, 0, []) == Pipe(Left(rx), Out(ranked, rx))
  {
    ScreenStart(ranked, rx);
    ScreenFromIsOut(ranked, rx, 0, 0, []);
  }

  // ---------------------------------------------------------------- the ranked loop

  /** The ranked loop pushes each surviving frame by itself. */
  ghost function RankedFrom(rx: seq<byte>, pos: nat, pushed: seq<byte>): Pipe
    requires pos <= |rx|
    decreases |rx| - pos
  {
    if pos + 2 > |rx| then Pipe(rx[pos..], pushed)
    else
      var len := LengthAt(rx, pos);
      if len > MAX_PAYLOAD + 1 then Pipe([], pushed)
      else if pos + len + 6 > |rx| then Pipe(rx[pos..], pushed)
      else if PassesAt(true, rx, pos, len + 6)
      then RankedFrom(rx, pos + len + 6, pushed + rx[pos..pos + len + 6])
      else RankedFrom(rx, pos + len + 6, pushed)
  }

  lemma {:induction false} RankedFromIsOut(rx: seq<byte>, pos: nat, pushed: seq<byte>)
    requires pos <= |rx|
    ensures RankedFrom(rx, pos, pushed) == Pipe(Left(rx[pos..]), pushed + Out(true, rx[pos..]))
    decreases |rx| - pos
  {
    if pos + 2 <= |rx| {
      ScanAt(rx, pos);
    }
    if Scan(rx[pos..]).Whole? {
      var n := Scan(rx[pos..]).total;
      RankedFromNext(rx, pos, n, pos + n, pushed);
    } else {
      NothingOut(rx[pos..]);
      assert pushed + [] == pushed;
    }
  }

  lemma NothingOut(s: seq<byte>)
    requires !Scan(s).Whole?
    ensures Out(true, s) == []
    ensures Left(s) == if Scan(s) == Oversized then [] else s
  {
    assert Screened(true, []) == [];
  }

  function Pushed(ranked: bool, u: seq<byte>): seq<byte> {
    if Passes(ranked, u) then u else []
  }

  lemma RankedUnfold(rx: seq<byte>, pos: nat, n: nat, next: nat, pushed: seq<byte>)
    requires pos <= next <= |rx| && next == pos + n && Scan(rx[pos..]) == Whole(n)
    ensures RankedFrom(rx, pos, pushed) == RankedFrom(rx, next, pushed + Pushed(true, rx[pos..next]))
  {
    ScanAt(rx, pos);
    assert PassesAt(true, rx, pos, n) == Passes(true, rx[pos..next]);
    assert pushed + [] == pushed;
  }

  lemma OutUnfold(rx: seq<byte>, pos: nat, n: nat, next: nat, pushed: seq<byte>)
    requires pos <= next <= |rx| && next == pos + n && Scan(rx[pos..]) == Whole(n)
    ensures (pushed + Pushed(true, rx[pos..next])) + Out(true, rx[next..]) == pushed + Out(true, rx[pos..])
    ensures Left(rx[next..]) == Left(rx[pos..])
  {
    SliceBetween(rx, pos, n, next);
    OutAtUnit(true, rx[pos..], n);
    Associates(pushed, Pushed(true, rx[pos..next]), Out(true, rx[next..]));
  }

  lemma {:induction false} RankedFromNext(rx: seq<byte>, pos: nat, n: nat, next: nat, pushed: seq<byte>)
    requires pos < next <= |rx| && next == pos + n && Scan(rx[pos..]) == Whole(n)
    ensures RankedFrom(rx, pos, pushed) == Pipe(Left(rx[pos..]), pushed + Out(true, rx[pos..]))
    decreases |rx| - pos, 0
  {
    RankedUnfold(rx, pos, n, next, pushed);
    OutUnfold(rx, pos, n, next, pushed);
    RankedFromIsOut(rx, next, pushed + Pushed(true, rx[pos..next]));
  }

  lemma RankedFromStart(rx: seq<byte>)
    ensures RankedFrom(rx, 0, []) == Pipe(Left(rx), Out(true, rx))
  {
    RankedFromIsOut(rx, 0, []);
    assert rx[0..] == rx && [] + Out(true, rx) == Out(true, rx);
  }
}
