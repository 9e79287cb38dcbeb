/** From the last tick to the verdict: what two honest clients report at the end of a match
    (src/main.cpp, SendMatchSummary of net/session.cpp) and what the relay's cross-check makes
    of it. */
module MatchOutcome {
  import opened Wrappers
  import opened Bytes
  import opened Framing
  import opened Duel
  import opened Lockstep
  import opened RelayState
  import opened RelayHandling

  const WORD32: int := 0x1_0000_0000

  /** A count cast to 32 bits. */
  function Word(x: int): nat { x % WORD32 }

  /** What a client reports when the game is over. */
  function Report(d: Duel, seconds: nat): Summary {
    Summary(if !d.local.over && d.remote.over then 1 else 0,
            Word(d.local.score), Word(d.local.lines), Word(d.remote.score), Word(d.remote.lines), Word(seconds))
  }

  /** MATCH_SUMMARY on the wire. */
  function SummaryPayload(s: Summary): seq<byte> {
    [if s.won != 0 then 1 else 0] + LeBytes(s.myScore, 4) + LeBytes(s.myLines, 4) +
    LeBytes(s.oppScore, 4) + LeBytes(s.oppLines, 4) + LeBytes(s.duration, 4)
  }

  predicate Fits32(s: Summary) {
    s.won <= 1 && s.myScore < WORD32 && s.myLines < WORD32 && s.oppScore < WORD32 && s.oppLines < WORD32 &&
    s.duration < WORD32
  }

  lemma WordRoundTrip(x: nat)
    requires x < WORD32
    ensures LeValue(LeBytes(x, 4)) == x
  {
    assert Pow256(4) == 256 * Pow256(3) && Pow256(3) == 256 * Pow256(2) && Pow256(2) == 256 * Pow256(1);
    assert Pow256(1) == 256 * Pow256(0);
    LeRoundTrip(x, 4);
  }

  lemma PayloadParts(s: Summary)
    ensures var p := SummaryPayload(s);
            |p| == 21 && p[0] == (if s.won != 0 then 1 else 0) && p[1..5] == LeBytes(s.myScore, 4) &&
            p[5..9] == LeBytes(s.myLines, 4) && p[9..13] == LeBytes(s.oppScore, 4) &&
            p[13..17] == LeBytes(s.oppLines, 4) && p[17..21] == LeBytes(s.duration, 4)
  {}

  lemma SubSlices(u: seq<byte>, p: seq<byte>)
    requires |u| == 28 && u[3..24] == p
    ensures u[3] == p[0] && u[4..8] == p[1..5] && u[8..12] == p[5..9] && u[12..16] == p[9..13]
    ensures u[16..20] == p[13..17] && u[20..24] == p[17..21]
  {}

  /** The relay reads back exactly what the client reported. */
  lemma SummaryRoundTrip(s: Summary)
    requires Fits32(s)
    ensures SummaryOf(BuildFrame(MATCH_SUMMARY, SummaryPayload(s))) == Some(s)
  {
    var p := SummaryPayload(s);
    PayloadParts(s);
    BuildDecode(MATCH_SUMMARY, p);
    var u := BuildFrame(MATCH_SUMMARY, p);
    assert ChecksumOk(u) && UnitPayload(u) == p by { assert Decode(u) != []; }
    SubSlices(u, p);
    WordRoundTrip(s.myScore);
    WordRoundTrip(s.myLines);
    WordRoundTrip(s.oppScore);
    WordRoundTrip(s.oppLines);
    WordRoundTrip(s.duration);
  }

  // ---------------------------------------------------------------- accounts that may disagree

  /** Each side's numbers are what the other observed. */
  predicate TwoViews(a: Summary, b: Summary) {
    a.myScore == b.oppScore && a.myLines == b.oppLines && b.myScore == a.oppScore && b.myLines == a.oppLines
  }

  predicate Claims(s: Summary) { s.won != 0 }

  /** What two accounts of one match agree on: whoever alone claims the win, if the numbers match. */
  function AgreedWinner(a: Summary, b: Summary, aId: int, bId: int): (winner: Option<int>)
    ensures winner == Some(aId) && aId != bId ==> TwoViews(a, b) && Claims(a) && !Claims(b)
    ensures winner == Some(bId) && aId != bId ==> TwoViews(a, b) && Claims(b) && !Claims(a)
  {
    if !TwoViews(a, b) || Claims(a) == Claims(b) then None else Some(if Claims(a) then aId else bId)
  }

  /** Different flags, the first other than 0, and not just 1 against 0. */
  predicate OddFlags(a: Summary, b: Summary) { a.won != b.won && a.won != 0 && (b.won != 0 || a.won != 1) }

  /** The cross-check names what the accounts agree on, and nobody otherwise, unless the numbers
      match and the flags are odd. */
  lemma CrossCheckIsAgreed(a: Summary, b: Summary, aId: int, bId: int)
    requires aId != bId
    ensures CrossCheck(a, b, aId, bId) == AgreedWinner(a, b, aId, bId) <==> !(TwoViews(a, b) && OddFlags(a, b))
  {}

  /** Only A claims the win, with a flag of 2, and B is named. */
  lemma ClaimOverruled()
    ensures var a, b := Summary(2, 500, 3, 100, 1, 60), Summary(0, 100, 1, 500, 3, 60);
            TwoViews(a, b) && Claims(a) && !Claims(b) && CrossCheck(a, b, 7, 9) == Some(9)
  {}

  /** A post on two accounts from clients, whose flags are 0 or 1, names the winner they agree on. */
  lemma PostedIsAgreed(s: Loop, p: Post)
    requires PostOk(s, p) && p.a.Some? && p.b.Some? && p.a.value.won <= 1 && p.b.value.won <= 1
    requires s.chanAt[p.match_].aId != s.chanAt[p.match_].bId
    ensures p.winner == AgreedWinner(p.a.value, p.b.value, s.chanAt[p.match_].aId, s.chanAt[p.match_].bId)
  {
    CrossCheckIsAgreed(p.a.value, p.b.value, s.chanAt[p.match_].aId, s.chanAt[p.match_].bId);
  }

  /** The verdict a match deserves: the side whose board survived, if exactly one did. */
  function Deserved(d: Duel, aId: int, bId: int): Option<int> {
    if d.local.over == d.remote.over then None else Some(if d.remote.over then aId else bId)
  }

  /** Reports on one duel from its two sides agree with each other, and the cross-check names
      a winner exactly if one board topped out: the side whose board survived. */
  lemma CrossCheckIsDeserved(d: Duel, secondsA: nat, secondsB: nat, aId: int, bId: int)
    requires Over(d)
    ensures CrossCheck(Report(d, secondsA), Report(Swapped(d), secondsB), aId, bId) == Deserved(d, aId, bId)
  {}

  /** A single report, from either side, forfeits to the same winner. */
  lemma ForfeitIsDeserved(d: Duel, seconds: nat, aId: int, bId: int)
    requires Over(d) && d.local.over != d.remote.over
    ensures Some(Forfeit(Some(Report(d, seconds)), None, aId, bId)) == Deserved(d, aId, bId)
    ensures Some(Forfeit(None, Some(Report(Swapped(d), seconds)), aId, bId)) == Deserved(d, aId, bId)
  {}

  /** An account of d: the numbers of its own board first. */
  predicate Tells(s: Summary, d: Duel) {
    s.myScore == Word(d.local.score) && s.myLines == Word(d.local.lines) &&
    s.oppScore == Word(d.remote.score) && s.oppLines == Word(d.remote.lines)
  }

  /** End to end: two clients of one round play until each sees the game over and report; the
      relay reads both reports from the wire and cross-checks them. */
  lemma HonestMatch(a: Client, b: Client, secondsA: nat, secondsB: nat, aId: int, bId: int)
    requires Paired(a, b) && Over(a.duel) && Over(b.duel)
    ensures var fa := BuildFrame(MATCH_SUMMARY, SummaryPayload(Report(a.duel, secondsA)));
            var fb := BuildFrame(MATCH_SUMMARY, SummaryPayload(Report(b.duel, secondsB)));
            SummaryOf(fa).Some? && SummaryOf(fb).Some? &&
            Tells(SummaryOf(fa).value, a.duel) && Tells(SummaryOf(fb).value, b.duel) &&
            CrossCheck(SummaryOf(fa).value, SummaryOf(fb).value, aId, bId) == Deserved(a.duel, aId, bId)
  {
    PairedStop(a, b);
    PairedSwaps(a, b);
    SummaryRoundTrip(Report(a.duel, secondsA));
    SummaryRoundTrip(Report(b.duel, secondsB));
    CrossCheckIsDeserved(a.duel, secondsA, secondsB, aId, bId);
  }
}
