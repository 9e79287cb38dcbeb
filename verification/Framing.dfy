/** net/framing: the private wire format [LEN:2][TYPE:1][PAYLOAD:LEN-1][CHECKSUM:4],
    its streaming parser and its printer.

    The specification cuts a byte string into units (whole frames, whatever they contain)
    and a tail; everything that walks a stream in this project is stated over that cut. */
module Framing {
  import opened Bytes

  const MAX_PAYLOAD: nat := 4096

  const QUEUE_JOIN: byte := 10
  const QUEUE_CANCEL: byte := 11
  const MATCH_FOUND: byte := 12
  const ROOM_CREATE: byte := 13
  const ROOM_JOIN: byte := 14
  const ROOM_INFO: byte := 15
  const ROOM_LEAVE: byte := 16
  const READY: byte := 17
  const MATCH_SUMMARY: byte := 18
  const MATCH_RESULT: byte := 19
  const CHAT: byte := 20
  const SERVER_REJECT: byte := 21

  datatype Frame = Frame(ty: byte, payload: seq<byte>)

  /** Types only the server may originate. */
  predicate IsServerOnly(ty: byte) {
    ty == MATCH_FOUND || ty == ROOM_INFO || ty == MATCH_RESULT || ty == SERVER_REJECT
  }

  // ---------------------------------------------------------------- cutting a stream

  /** What the bytes at the head of a stream are. */
  datatype Head = Incomplete | Oversized | Whole(total: nat)

  function DeclaredLength(s: seq<byte>): nat
    requires |s| >= 2
  {
    (s[0] as int) + 256 * (s[1] as int)
  }

  function Scan(s: seq<byte>): (h: Head)
    ensures h.Whole? ==> 6 <= h.total <= |s| && h.total <= MAX_PAYLOAD + 7
  {
    if |s| < 2 then Incomplete
    else if DeclaredLength(s) > MAX_PAYLOAD + 1 then Oversized
    else if |s| < DeclaredLength(s) + 6 then Incomplete
    else Whole(DeclaredLength(s) + 6)
  }

  /** A unit is one whole frame: its length field accounts for exactly its bytes. */
  predicate IsUnit(u: seq<byte>) {
    Scan(u) == Whole(|u|)
  }

  predicate AllUnits(us: seq<seq<byte>>) {
    forall i :: 0 <= i < |us| ==> IsUnit(us[i])
  }

  function Concat(us: seq<seq<byte>>): seq<byte> {
    if us == [] then [] else us[0] + Concat(us[1..])
  }

  /** The whole frames at the head of a stream, what is left, and whether the cut
      stopped for want of bytes (ok) or at an oversized length (!ok). */
  datatype Cut = Cut(units: seq<seq<byte>>, rest: seq<byte>, ok: bool)

  function Split(s: seq<byte>): Cut
    decreases |s|
  {
    match Scan(s)
    case Incomplete => Cut([], s, true)
    case Oversized => Cut([], s, false)
    case Whole(n) =>
      var t := Split(s[n..]);
      Cut([s[..n]] + t.units, t.rest, t.ok)
  }

  lemma {:induction false} SplitUnits(s: seq<byte>)
    ensures AllUnits(Split(s).units)
    decreases |s|
  {
    if Scan(s).Whole? {
      UnitAtHead(s);
      SplitUnits(s[Scan(s).total..]);
    }
  }

  lemma UnitAtHead(s: seq<byte>)
    requires Scan(s).Whole?
    ensures IsUnit(s[..Scan(s).total])
  {}

  /** A verdict on a prefix stands however the stream goes on. */
  lemma ScanStable(a: seq<byte>, b: seq<byte>)
    ensures Scan(a) != Incomplete ==> Scan(a + b) == Scan(a)
  {}

  /** The cut loses nothing: units and tail put together are the stream. */
  lemma {:induction false} SplitPartition(s: seq<byte>)
    ensures Concat(Split(s).units) + Split(s).rest == s
    decreases |s|
  {
    if Scan(s).Whole? {
      var n := Scan(s).total;
      var u, t := s[..n], s[n..];
      assert s == u + t;
      SplitPartition(t);
      ConcatCons(u, Split(t).units);
      Associates(u, Concat(Split(t).units), Split(t).rest);
    }
  }

  lemma Associates<T>(a: seq<T>, b: seq<T>, c: seq<T>)
    ensures a + b + c == a + (b + c)
  {}

  lemma ConcatCons(u: seq<byte>, us: seq<seq<byte>>)
    ensures Concat([u] + us) == u + Concat(us)
  {
    assert ([u] + us)[1..] == us;
  }

  /** A good tail is a frame still under way, so shorter than the longest frame; a bad one
      starts with an oversized length. */
  lemma {:induction false} SplitTail(s: seq<byte>)
    ensures Split(s).ok ==> Scan(Split(s).rest) == Incomplete && |Split(s).rest| < MAX_PAYLOAD + 7
    ensures !Split(s).ok ==> Scan(Split(s).rest) == Oversized
    decreases |s|
  {
    if Scan(s).Whole? {
      SplitTail(s[Scan(s).total..]);
    }
  }

  lemma SplitWhole(a: seq<byte>, b: seq<byte>, n: nat)
    requires Scan(a) == Whole(n)
    ensures IsUnit(a[..n])
    ensures Split(a) == Prepend([a[..n]], Split(a[n..]))
    ensures Split(a + b) == Prepend([a[..n]], Split(a[n..] + b))
  {
    UnitAtHead(a);
    ScanStable(a, b);
    assert (a + b)[n..] == a[n..] + b;
    assert (a + b)[..n] == a[..n];
  }

  function Prepend(us: seq<seq<byte>>, c: Cut): Cut {
    Cut(us + c.units, c.rest, c.ok)
  }

  lemma PrependTwice(us: seq<seq<byte>>, vs: seq<seq<byte>>, c: Cut)
    ensures Prepend(us, Prepend(vs, c)) == Prepend(us + vs, c)
  {
    Associates(us, vs, c.units);
  }

  /** Cutting is incremental: the tail of a first chunk, continued by the next chunk,
      yields what one cut of both yields. */
  lemma {:induction false} SplitAppend(a: seq<byte>, b: seq<byte>)
    ensures Split(a).ok ==> Split(a + b) == Prepend(Split(a).units, Split(Split(a).rest + b))
    ensures !Split(a).ok ==> Split(a + b) == Cut(Split(a).units, Split(a).rest + b, false)
    decreases |a|
  {
    match Scan(a)
    case Incomplete =>
      assert [] + Split(a + b).units == Split(a + b).units;
    case Oversized =>
      ScanStable(a, b);
    case Whole(n) =>
      SplitWhole(a, b, n);
      SplitAppend(a[n..], b);
      var t := Split(a[n..]);
      PrependTwice([a[..n]], t.units, Split(t.rest + b));
  }

  /** Cutting a concatenation of units followed by anything gives those units back. */
  lemma {:induction false} SplitConcat(us: seq<seq<byte>>, t: seq<byte>)
    requires AllUnits(us)
    ensures Split(Concat(us) + t) == Prepend(us, Split(t))
    decreases |us|
  {
    if us == [] {
      assert Concat(us) + t == t;
      PrependNone(Split(t));
    } else {
      SplitConcat(us[1..], t);
      Associates(us[0], Concat(us[1..]), t);
      UnitThen(us[0], Concat(us[1..]) + t);
      PrependTwice([us[0]], us[1..], Split(t));
      HeadTail(us);
    }
  }

  lemma PrependNone(c: Cut)
    ensures Prepend([], c) == c
  {
    assert [] + c.units == c.units;
  }

  lemma HeadTail<T>(s: seq<T>)
    requires s != []
    ensures [s[0]] + s[1..] == s
  {}

  lemma UnitThen(u: seq<byte>, t: seq<byte>)
    requires IsUnit(u)
    ensures Scan(u + t) == Whole(|u|)
    ensures (u + t)[..|u|] == u && (u + t)[|u|..] == t
    ensures Split(u + t) == Prepend([u], Split(t))
  {
    ScanStable(u, t);
    assert (u + t)[|u|..] == t;
  }

  lemma {:induction false} ConcatAppend(us: seq<seq<byte>>, vs: seq<seq<byte>>)
    ensures Concat(us + vs) == Concat(us) + Concat(vs)
  {
    if us == [] {
      assert us + vs == vs;
    } else {
      ConcatAppend(us[1..], vs);
      assert (us + vs)[1..] == us[1..] + vs;
      assert us[0] + (Concat(us[1..]) + Concat(vs)) == (us[0] + Concat(us[1..])) + Concat(vs);
    }
  }

  /** Bytes that are nothing but whole frames. */
  predicate WholeFrames(s: seq<byte>) {
    Split(s).ok && Split(s).rest == []
  }

  lemma WholeFramesOfUnits(us: seq<seq<byte>>)
    requires AllUnits(us)
    ensures WholeFrames(Concat(us))
    ensures Split(Concat(us)).units == us
  {
    SplitConcat(us, []);
    assert Concat(us) + [] == Concat(us);
    assert us + [] == us;
  }

  /** Frame-aligned byte strings may be sent one after the other. */
  lemma WholeFramesAppend(a: seq<byte>, b: seq<byte>)
    requires WholeFrames(a) && WholeFrames(b)
    ensures WholeFrames(a + b)
    ensures Split(a + b).units == Split(a).units + Split(b).units
  {
    SplitAppend(a, b);
    assert [] + b == b;
  }

  // ---------------------------------------------------------------- frames

  function ChecksumOf(payload: seq<byte>): nat {
    if payload == [] then 0 else Fnv1a(payload)
  }

  function UnitPayload(u: seq<byte>): seq<byte>
    requires |u| >= 7
  {
    u[3..|u| - 4]
  }

  predicate ChecksumOk(u: seq<byte>)
    requires |u| >= 7
  {
    LeValue(u[|u| - 4..]) == ChecksumOf(UnitPayload(u))
  }

  /** The frame a unit carries: none without a type byte or with a wrong checksum. */
  function Decode(u: seq<byte>): seq<Frame> {
    if |u| < 7 then [] else if ChecksumOk(u) then [Frame(u[2], UnitPayload(u))] else []
  }

  function FramesOf(us: seq<seq<byte>>): seq<Frame> {
    if us == [] then [] else Decode(us[0]) + FramesOf(us[1..])
  }

  lemma {:induction false} FramesOfAppend(us: seq<seq<byte>>, vs: seq<seq<byte>>)
    ensures FramesOf(us + vs) == FramesOf(us) + FramesOf(vs)
  {
    if us == [] {
      assert us + vs == vs;
    } else {
      FramesOfAppend(us[1..], vs);
      assert (us + vs)[1..] == us[1..] + vs;
      Associates(Decode(us[0]), FramesOf(us[1..]), FramesOf(vs));
    }
  }

  /** What one call of the parser delivers, as a function of the accumulated stream. */
  datatype Parsed = Parsed(ok: bool, frames: seq<Frame>, rest: seq<byte>)

  function Parse(s: seq<byte>): Parsed {
    var c := Split(s);
    Parsed(c.ok, FramesOf(c.units), if c.ok then c.rest else [])
  }

  lemma FramesOfOne(u: seq<byte>)
    ensures FramesOf([u]) == Decode(u)
  {
    ghost var none: seq<seq<byte>> := [u][1..];
    assert none == [] && FramesOf(none) == [];
    assert Decode(u) + [] == Decode(u);
  }

  lemma SubSlice<T>(s: seq<T>, a: nat, b: nat, i: nat, j: nat)
    requires a <= b <= |s| && i <= j <= b - a
    ensures s[a..b][i..j] == s[a + i..a + j]
  {
    var t := s[a..b];
    forall k | 0 <= k < j - i
      ensures t[i..j][k] == s[a + i..a + j][k]
    {
      assert t[i..j][k] == t[i + k] == s[a + (i + k)];
    }
  }

  /** The frame a whole frame carries, read field by field from its place in a buffer. */
  lemma DecodeAt(buf: seq<byte>, offset: nat, len: nat)
    requires offset + len + 6 <= |buf|
    ensures len == 0 ==> Decode(buf[offset..offset + len + 6]) == []
    ensures len >= 1 ==>
              Decode(buf[offset..offset + len + 6]) ==
              if LeValue(buf[offset + 2 + len..offset + 6 + len]) == ChecksumOf(buf[offset + 3..offset + 2 + len])
              then [Frame(buf[offset + 2], buf[offset + 3..offset + 2 + len])] else []
  {
    var u := buf[offset..offset + len + 6];
    if len >= 1 {
      SubSlice(buf, offset, offset + len + 6, len + 2, len + 6);
      SubSlice(buf, offset, offset + len + 6, 3, len + 2);
    }
  }

  function LengthAt(buf: seq<byte>, offset: nat): nat
    requires offset + 2 <= |buf|
  {
    (buf[offset] as int) + 256 * (buf[offset + 1] as int)
  }

  /** The header test as the loop performs it, in place at an offset. */
  lemma ScanAt(buf: seq<byte>, offset: nat)
    requires offset + 2 <= |buf|
    ensures var len := LengthAt(buf, offset);
            Scan(buf[offset..]) ==
            if len > MAX_PAYLOAD + 1 then Oversized
            else if offset + len + 6 > |buf| then Incomplete
            else Whole(len + 6)
  {}

  /** The parser written as the loop runs, by offset into the buffer. */
  ghost function ParseFrom(buf: seq<byte>, offset: nat, acc: seq<Frame>): Parsed
    requires offset <= |buf|
    decreases |buf| - offset
  {
    if offset + 2 > |buf| then Parsed(true, acc, buf[offset..])
    else
      var len := LengthAt(buf, offset);
      if len > MAX_PAYLOAD + 1 then Parsed(false, acc, [])
      else if offset + len + 6 > |buf| then Parsed(true, acc, buf[offset..])
      else
        ParseFrom(buf, offset + len + 6, acc + Decode(buf[offset..offset + len + 6]))
  }

  ghost function After(acc: seq<Frame>, p: Parsed): Parsed {
    Parsed(p.ok, acc + p.frames, p.rest)
  }

  lemma ParseWhole(s: seq<byte>, n: nat)
    requires Scan(s) == Whole(n)
    ensures Parse(s) == After(Decode(s[..n]), Parse(s[n..]))
  {
    FramesOfAppend([s[..n]], Split(s[n..]).units);
    FramesOfOne(s[..n]);
  }

  lemma ParseNone(s: seq<byte>, acc: seq<Frame>)
    requires !Scan(s).Whole?
    ensures After(acc, Parse(s)) == Parsed(Scan(s) == Incomplete, acc, if Scan(s) == Incomplete then s else [])
  {
    assert acc + [] == acc;
  }

  /** The loop's parser delivers what the cut of the remaining stream says. */
  lemma {:induction false} ParseFromIsParse(buf: seq<byte>, offset: nat, acc: seq<Frame>)
    requires offset <= |buf|
    ensures ParseFrom(buf, offset, acc) == After(acc, Parse(buf[offset..]))
    decreases |buf| - offset
  {
    if offset + 2 > |buf| {
      ParseNone(buf[offset..], acc);
    } else {
      ScanAt(buf, offset);
      if Scan(buf[offset..]).Whole? {
        var next, acc' := ParseFromTurn(buf, offset, acc);
        ParseFromStep(buf, offset, acc, next, acc');
      } else {
        ParseNone(buf[offset..], acc);
      }
    }
  }

  lemma ParseFromNext(buf: seq<byte>, offset: nat, n: nat, next: nat, acc: seq<Frame>, acc': seq<Frame>)
    requires offset <= next <= |buf| && next == offset + n && Scan(buf[offset..]) == Whole(n)
    requires acc' == acc + Decode(buf[offset..next])
    ensures ParseFrom(buf, offset, acc) == ParseFrom(buf, next, acc')
  {
    ScanAt(buf, offset);
    FrameRead(buf, offset, next, acc, Decode(buf[offset..next]));
  }

  lemma AfterNext(buf: seq<byte>, offset: nat, n: nat, next: nat, acc: seq<Frame>, acc': seq<Frame>)
    requires offset <= next <= |buf| && next == offset + n && Scan(buf[offset..]) == Whole(n)
    requires acc' == acc + Decode(buf[offset..next])
    ensures After(acc, Parse(buf[offset..])) == After(acc', Parse(buf[next..]))
  {
    SliceBetween(buf, offset, n, next);
    ParseWhole(buf[offset..], n);
    AfterAfter(acc, Decode(buf[offset..next]), Parse(buf[next..]));
  }

  lemma SliceBetween<T>(s: seq<T>, i: nat, n: nat, j: nat)
    requires j == i + n && j <= |s|
    ensures s[i..][..n] == s[i..j] && s[i..][n..] == s[j..]
  {}

  lemma AfterAfter(a: seq<Frame>, b: seq<Frame>, p: Parsed)
    ensures After(a, After(b, p)) == After(a + b, p)
  {
    Associates(a, b, p.frames);
  }

  lemma {:induction false} ParseFromStep(buf: seq<byte>, offset: nat, acc: seq<Frame>, next: nat, acc': seq<Frame>)
    requires offset < next <= |buf|
    requires ParseFrom(buf, offset, acc) == ParseFrom(buf, next, acc')
    requires After(acc, Parse(buf[offset..])) == After(acc', Parse(buf[next..]))
    ensures ParseFrom(buf, offset, acc) == After(acc, Parse(buf[offset..]))
    decreases |buf| - offset, 0
  {
    ParseFromIsParse(buf, next, acc');
  }

  lemma ParseFromTurn(buf: seq<byte>, offset: nat, acc: seq<Frame>) returns (next: nat, acc': seq<Frame>)
    requires offset <= |buf| && Scan(buf[offset..]).Whole?
    ensures offset < next <= |buf|
    ensures ParseFrom(buf, offset, acc) == ParseFrom(buf, next, acc')
    ensures After(acc, Parse(buf[offset..])) == After(acc', Parse(buf[next..]))
  {
    var n := Scan(buf[offset..]).total;
    next := offset + n;
    acc' := acc + Decode(buf[offset..next]);
    ParseFromNext(buf, offset, n, next, acc, acc');
    AfterNext(buf, offset, n, next, acc, acc');
  }

  /** The frame read from a whole frame in place. */
  method ReadFrame(buf: seq<byte>, offset: nat, len: nat, next: nat) returns (fs: seq<Frame>)
    requires next == offset + len + 6 && next <= |buf|
    ensures fs == Decode(buf[offset..next])
  {
    DecodeAt(buf, offset, len);
    fs := [];
    if len >= 1 {
      var payload := buf[offset + 3..offset + 2 + len];
      var chk := LeValue(buf[offset + 2 + len..offset + 6 + len]);
      if chk == ChecksumOf(payload) {
        fs := [Frame(buf[offset + 2], payload)];
      }
    }
  }

  lemma FrameRead(buf: seq<byte>, offset: nat, next: nat, parsed: seq<Frame>, fs: seq<Frame>)
    requires offset + 2 <= |buf| && LengthAt(buf, offset) <= MAX_PAYLOAD + 1
    requires next == offset + LengthAt(buf, offset) + 6 && next <= |buf| && fs == Decode(buf[offset..next])
    ensures ParseFrom(buf, offset, parsed) == ParseFrom(buf, next, parsed + fs)
  {}

  /** parse_frames: consumes the whole frames of the buffer, appends the good ones to
      out, and keeps the incomplete tail; an oversized length clears the buffer. */
  method ParseFrames(buf: seq<byte>, out: seq<Frame>)
    returns (ok: bool, buf': seq<byte>, out': seq<Frame>)
    ensures ok == Parse(buf).ok
    ensures out' == out + Parse(buf).frames
    ensures buf' == Parse(buf).rest
  {
    var offset := 0;
    var parsed: seq<Frame> := [];
    while true
      invariant offset <= |buf|
      invariant ParseFrom(buf, offset, parsed) == ParseFrom(buf, 0, [])
      decreases |buf| - offset
    {
      if offset + 2 > |buf| { break; }
      var len := LengthAt(buf, offset);
      if len > MAX_PAYLOAD + 1 {
        ParseFromStart(buf);
        return false, [], out + parsed;
      }
      var next := offset + len + 6;
      if next > |buf| { break; }
      var fs := ReadFrame(buf, offset, len, next);
      FrameRead(buf, offset, next, parsed, fs);
      parsed := parsed + fs;
      offset := next;
    }
    ParseFromStart(buf);
    ok, buf', out' := true, buf[offset..], out + parsed;
  }

  lemma ParseFromStart(buf: seq<byte>)
    ensures ParseFrom(buf, 0, []) == Parse(buf)
  {
    ParseFromIsParse(buf, 0, []);
    assert buf[0..] == buf;
    assert [] + Parse(buf).frames == Parse(buf).frames;
  }

  /** build_frame: the unit carrying a frame; the empty string when the payload is too long. */
  function BuildFrame(ty: byte, payload: seq<byte>): seq<byte> {
    if |payload| > MAX_PAYLOAD then []
    else LeBytes(1 + |payload|, 2) + [ty] + payload + LeBytes(ChecksumOf(payload), 4)
  }

  function BuildAll(fs: seq<Frame>): seq<byte> {
    if fs == [] then [] else BuildFrame(fs[0].ty, fs[0].payload) + BuildAll(fs[1..])
  }

  function UnitsFor(fs: seq<Frame>): seq<seq<byte>> {
    if fs == [] then [] else [BuildFrame(fs[0].ty, fs[0].payload)] + UnitsFor(fs[1..])
  }

  /** Printing then parsing one frame gives the frame back, and the print is one unit. */
  lemma BuildDecode(ty: byte, payload: seq<byte>)
    requires |payload| <= MAX_PAYLOAD
    ensures IsUnit(BuildFrame(ty, payload))
    ensures Decode(BuildFrame(ty, payload)) == [Frame(ty, payload)]
    ensures |BuildFrame(ty, payload)| == |payload| + 7
    ensures BuildFrame(ty, payload)[2] == ty
  {
    var n := 1 + |payload|;
    var u := BuildFrame(ty, payload);
    assert LeBytes(n, 2) == [n % 256] + LeBytes(n / 256, 1);
    assert LeBytes(n / 256, 1) == [(n / 256) % 256] + LeBytes(n / 256 / 256, 0);
    assert u[0] == n % 256 && u[1] == (n / 256) % 256;
    assert DeclaredLength(u) == n;
    assert IsUnit(u);
    assert UnitPayload(u) == payload;
    assert u[|u| - 4..] == LeBytes(ChecksumOf(payload), 4);
    var sum := ChecksumOf(payload);
    assert sum < TWO_32 by { FnvIsWord(payload); }
    assert Pow256(4) == TWO_32 by {
      assert Pow256(4) == 256 * Pow256(3) && Pow256(3) == 256 * Pow256(2);
      assert Pow256(2) == 256 * Pow256(1) && Pow256(1) == 256 * Pow256(0);
    }
    LeRoundTrip(sum, 4);
  }

  /** One byte of a frame in transit replaced, behind its length: the frame is dropped and the
      next one read, except that the type byte is not protected. */
  lemma Damaged(ty: byte, payload: seq<byte>, k: nat, b: byte, behind: seq<byte>)
    requires |payload| <= MAX_PAYLOAD && 2 <= k < |BuildFrame(ty, payload)| && b != BuildFrame(ty, payload)[k]
    ensures var p, next := Parse(BuildFrame(ty, payload)[k := b] + behind), Parse(behind);
            p.ok == next.ok && p.rest == next.rest &&
            p.frames == (if k == 2 then [Frame(b, payload)] else []) + next.frames
  {
    BuildDecode(ty, payload);
    var u := BuildFrame(ty, payload);
    var v := u[k := b];
    assert IsUnit(v);
    UnitThen(v, behind);
    if k == 2 {
      assert UnitPayload(v) == UnitPayload(u) && v[|v| - 4..] == u[|u| - 4..];
    } else if k < |u| - 4 {
      assert UnitPayload(v) == UnitPayload(u)[k - 3 := b] && v[|v| - 4..] == u[|u| - 4..];
      OneByteOff(UnitPayload(u), k - 3, b);
    } else {
      assert UnitPayload(v) == UnitPayload(u) && v[|v| - 4..] == u[|u| - 4..][k - (|u| - 4) := b];
      LeValueApart(u[|u| - 4..], k - (|u| - 4), b);
    }
    FramesOfAppend([v], Split(behind).units);
    FramesOfOne(v);
  }

  lemma DecodeSendable(u: seq<byte>)
    requires IsUnit(u)
    ensures Sendable(Decode(u))
  {}

  lemma {:induction false} FramesSendable(us: seq<seq<byte>>)
    requires AllUnits(us)
    ensures Sendable(FramesOf(us))
  {
    if us != [] {
      DecodeSendable(us[0]);
      FramesSendable(us[1..]);
    }
  }

  lemma ParseSendable(s: seq<byte>)
    ensures Sendable(Parse(s).frames)
  {
    SplitUnits(s);
    FramesSendable(Split(s).units);
  }

  predicate Sendable(fs: seq<Frame>) {
    forall i :: 0 <= i < |fs| ==> |fs[i].payload| <= MAX_PAYLOAD
  }

  lemma {:induction false} BuildAllUnits(fs: seq<Frame>)
    requires Sendable(fs)
    ensures AllUnits(UnitsFor(fs))
    ensures Concat(UnitsFor(fs)) == BuildAll(fs)
    ensures FramesOf(UnitsFor(fs)) == fs
  {
    if fs == [] {
    } else {
      BuildDecode(fs[0].ty, fs[0].payload);
      BuildAllUnits(fs[1..]);
      var u := BuildFrame(fs[0].ty, fs[0].payload);
      assert UnitsFor(fs)[1..] == UnitsFor(fs[1..]);
      assert [fs[0]] + fs[1..] == fs;
    }
  }

  /** Concatenated frames parse back exactly, in front of any further bytes. */
  lemma BuildParse(fs: seq<Frame>, tail: seq<byte>)
    requires Sendable(fs)
    ensures Parse(BuildAll(fs) + tail) ==
            Parsed(Parse(tail).ok, fs + Parse(tail).frames, Parse(tail).rest)
  {
    BuildAllUnits(fs);
    SplitConcat(UnitsFor(fs), tail);
    FramesOfAppend(UnitsFor(fs), Split(tail).units);
  }

  // ---------------------------------------------------------------- streaming

  /** Parsing in two calls equals parsing once, up to the first oversized header; after
      one, the frames before it have been delivered and the first call already failed. */
  lemma ParseAppend(a: seq<byte>, b: seq<byte>)
    ensures Parse(a).ok ==>
              Parse(a + b) == Parsed(Parse(Parse(a).rest + b).ok,
                                     Parse(a).frames + Parse(Parse(a).rest + b).frames,
                                     Parse(Parse(a).rest + b).rest)
    ensures !Parse(a).ok ==> Parse(a + b) == Parse(a)
  {
    SplitAppend(a, b);
    if Parse(a).ok {
      FramesOfAppend(Split(a).units, Split(Split(a).rest + b).units);
    }
  }

  function Flatten(chunks: seq<seq<byte>>): seq<byte> {
    if chunks == [] then [] else Flatten(chunks[..|chunks| - 1]) + chunks[|chunks| - 1]
  }

  /** A receiver that reads chunk after chunk into one buffer and parses after each read,
      stopping for good at the first failed parse. */
  function Feed(chunks: seq<seq<byte>>): Parsed {
    if chunks == [] then Parsed(true, [], [])
    else
      var before := Feed(chunks[..|chunks| - 1]);
      if !before.ok then before
      else
        var now := Parse(before.rest + chunks[|chunks| - 1]);
        Parsed(now.ok, before.frames + now.frames, now.rest)
  }

  /** However a stream is chopped into reads, the receiver ends with the frames, the tail
      and the verdict of a single parse of the whole stream. */
  lemma {:induction false} FeedIsParse(chunks: seq<seq<byte>>)
    ensures Feed(chunks) == Parse(Flatten(chunks))
  {
    if chunks == [] {
      assert Split([]) == Cut([], [], true);
    } else {
      var init := chunks[..|chunks| - 1];
      FeedIsParse(init);
      ParseAppend(Flatten(init), chunks[|chunks| - 1]);
    }
  }

  /** The tail of a good parse holds no frame yet and is shorter than the longest frame. */
  lemma ParseTail(s: seq<byte>)
    requires Parse(s).ok
    ensures |Parse(s).rest| < MAX_PAYLOAD + 7
    ensures Parse(Parse(s).rest) == Parsed(true, [], Parse(s).rest)
  {
    SplitTail(s);
  }

  // ---------------------------------------------------------------- residual hand-over

  /** keep_residual: the frames after the first k, printed again, in front of the tail. */
  function Residual(p: Parsed, k: nat): seq<byte>
    requires k <= |p.frames|
  {
    BuildAll(p.frames[k..]) + p.rest
  }

  /** Handing the residual to the next stage loses no frame and invents none. */
  lemma ResidualParse(s: seq<byte>, k: nat)
    requires Parse(s).ok && k <= |Parse(s).frames|
    ensures Parse(Residual(Parse(s), k)) == Parsed(true, Parse(s).frames[k..], Parse(s).rest)
  {
    var p := Parse(s);
    ParseSendable(s);
    ParseTail(s);
    BuildParse(p.frames[k..], p.rest);
    assert p.frames[k..] + [] == p.frames[k..];
  }

  /** ... and it never outgrows the buffer it came from. */
  lemma ResidualFits(s: seq<byte>, k: nat)
    requires Parse(s).ok && k <= |Parse(s).frames|
    ensures |Residual(Parse(s), k)| <= |s|
  {
    var c := Split(s);
    SplitUnits(s);
    PrintedSize(c.units);
    DropShorter(Parse(s).frames, k);
    SplitPartition(s);
  }

  lemma {:induction false} PrintedSize(us: seq<seq<byte>>)
    requires AllUnits(us)
    ensures |BuildAll(FramesOf(us))| <= |Concat(us)|
  {
    if us == [] {
    } else {
      PrintedSize(us[1..]);
      var d := Decode(us[0]);
      DecodeSendable(us[0]);
      if d == [] {
        assert FramesOf(us) == FramesOf(us[1..]);
      } else {
        BuildDecode(d[0].ty, d[0].payload);
        assert FramesOf(us)[1..] == FramesOf(us[1..]);
      }
    }
  }

  lemma {:induction false} DropShorter(fs: seq<Frame>, k: nat)
    requires k <= |fs|
    ensures |BuildAll(fs[k..])| <= |BuildAll(fs)|
  {
    if k == 0 {
      assert fs[0..] == fs;
    } else {
      DropShorter(fs[1..], k - 1);
      assert fs[1..][k - 1..] == fs[k..];
    }
  }
}
