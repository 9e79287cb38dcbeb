/** server/relay.cpp: a match relayed by two forwarding threads, one per direction.  Each
    method is one atomic step of one thread; the two may interleave in any way. */
module ThreadedRelay {
  import opened Wrappers
  import opened RelayState

  /** What a forwarder is doing: reading and relaying, between its claim of the outcome and
      the post, out of its loop, or, as the last one out, settling the match. */
  datatype Phase =
    | Relaying
    | Posting(a: Summary, b: Summary, last: bool)   // finalizeRanked has claimed the outcome
    | Ending(side: nat)                             // out of the loop, not yet counted out
    | Last                                          // counted out last: about to settle
    | Delegating                                    // both summaries seen: about to cross-check
    | Deciding(onlyA: Option<Summary>, onlyB: Option<Summary>)
    | Finished

  datatype Outcome =
    | CrossChecked(a: Summary, b: Summary, winner: Option<int>)
    | Forfeited(givenA: Option<Summary>, givenB: Option<Summary>, forfeit: int)

  datatype Match = Match(
    ranked: bool, aId: int, bId: int,
    sumA: Option<Summary>, sumB: Option<Summary>,
    handled: bool, closed: bool, count: int, disconnectSide: nat,
    phases: seq<Phase>,          // 0: from A to B, 1: from B to A
    posts: seq<Outcome>)

  // ---------------------------------------------------------------- invariant

  /** Has not been counted out. */
  predicate InLoop(p: Phase) { p.Relaying? || (p.Posting? && !p.last) || p.Ending? }

  /** Runs after everybody has been counted out. */
  predicate Settling(p: Phase) { p.Last? || p.Delegating? || p.Deciding? || (p.Posting? && p.last) }

  /** Has claimed the outcome and not posted it yet. */
  predicate Claiming(p: Phase) { p.Posting? || p.Deciding? }

  function One(b: bool): int { if b then 1 else 0 }

  ghost predicate PhaseOk(m: Match, p: Phase) {
    match p
    case Posting(a, b, _) => m.sumA == Some(a) && m.sumB == Some(b)
    case Deciding(a, b) => a == m.sumA && b == m.sumB && (a.Some? != b.Some?)
    case _ => true
  }

  /** A post agrees with the summaries as they are, for good: cross-checked when both exist,
      a forfeit only when exactly one ever will. */
  ghost predicate OutcomeOk(m: Match, o: Outcome) {
    match o
    case CrossChecked(a, b, winner) =>
      m.sumA == Some(a) && m.sumB == Some(b) && winner == CrossCheck(a, b, m.aId, m.bId)
    case Forfeited(a, b, winner) =>
      m.sumA == a && m.sumB == b && a.Some? != b.Some? && winner == Forfeit(a, b, m.aId, m.bId) && m.count == 0
  }

  ghost predicate AtMostOnce(m: Match) {
    |m.phases| == 2 &&
    m.count == One(InLoop(m.phases[0])) + One(InLoop(m.phases[1])) &&
    !(Settling(m.phases[0]) && Settling(m.phases[1])) &&
    (Settling(m.phases[0]) || Settling(m.phases[1]) ==> m.count == 0) &&
    |m.posts| + One(Claiming(m.phases[0])) + One(Claiming(m.phases[1])) <= One(m.handled) &&
    PhaseOk(m, m.phases[0]) && PhaseOk(m, m.phases[1]) &&
    (forall i :: 0 <= i < |m.posts| ==> OutcomeOk(m, m.posts[i])) &&
    (!m.ranked ==> m.posts == [] && m.sumA.None? && m.sumB.None?)
  }

  /** What the invariant is for: at most one post, never a forfeit beside two summaries. */
  lemma AtMostOnePost(m: Match)
    requires AtMostOnce(m)
    ensures |m.posts| <= 1 && (|m.posts| == 1 ==> m.handled && m.ranked)
    ensures |m.posts| == 1 && m.posts[0].Forfeited? ==> !(m.sumA.Some? && m.sumB.Some?)
    ensures |m.posts| == 1 && m.sumA.Some? && m.sumB.Some? ==>
              m.posts[0] == CrossChecked(m.sumA.value, m.sumB.value,
                                        CrossCheck(m.sumA.value, m.sumB.value, m.aId, m.bId))
  {
    if |m.posts| == 1 { assert OutcomeOk(m, m.posts[0]); }
  }

  datatype Step =
    | Collect(d: nat, s: Summary)
    | Claim(d: nat)
    | PostRanked(d: nat)
    | EndLoop(d: nat, side: nat)
    | Complete(d: nat, stopping: bool)
    | SettleForfeit(d: nat)
    | PostForfeit(d: nat)

  class Channel {
    const ranked: bool
    const aId: int
    const bId: int
    var sumA: Option<Summary>
    var sumB: Option<Summary>
    var handled: bool
    var closed: bool
    var count: int
    var disconnectSide: nat
    var phases: seq<Phase>
    var posts: seq<Outcome>

    ghost function Now(): Match
      reads this
    {
      Match(ranked, aId, bId, sumA, sumB, handled, closed, count, disconnectSide, phases, posts)
    }

    constructor (ranked: bool, aId: int, bId: int)
      ensures AtMostOnce(Now()) && posts == [] && phases == [Relaying, Relaying]
    {
      this.ranked, this.aId, this.bId := ranked, aId, bId;
      sumA, sumB, handled, closed, count, disconnectSide := None, None, false, false, 2, 0;
      phases, posts := [Relaying, Relaying], [];
    }

    /** A MATCH_SUMMARY read on direction d of a ranked match; the first one counts. */
    method CollectSummary(d: nat, s: Summary)
      requires AtMostOnce(Now()) && d < 2 && phases[d].Relaying? && ranked
      modifies this`sumA, this`sumB
      ensures AtMostOnce(Now())
      ensures sumA == if d == 0 && old(sumA).None? then Some(s) else old(sumA)
      ensures sumB == if d == 1 && old(sumB).None? then Some(s) else old(sumB)
    {
      if d == 0 {
        if sumA.None? { sumA := Some(s); }
      } else {
        if sumB.None? { sumB := Some(s); }
      }
    }

    /** The claim of finalizeRanked: once, and only with both summaries. */
    method ClaimRanked(d: nat)
      requires AtMostOnce(Now()) && d < 2 && (phases[d].Relaying? || phases[d].Delegating?)
      modifies this`handled, this`phases
      ensures AtMostOnce(Now())
      ensures handled == (old(handled) || (sumA.Some? && sumB.Some?))
      ensures !old(handled) && sumA.Some? && sumB.Some? ==>
                phases == old(phases)[d := Posting(sumA.value, sumB.value, old(phases)[d].Delegating?)]
    {
      var last := phases[d].Delegating?;
      if handled || sumA.None? || sumB.None? {
        if last { phases := phases[d := Finished]; }
        return;
      }
      handled := true;
      phases := phases[d := Posting(sumA.value, sumB.value, last)];
    }

    /** finalizeRanked outside its lock: the cross-checked result is posted. */
    method PostCrossCheck(d: nat)
      requires AtMostOnce(Now()) && d < 2 && phases[d].Posting?
      modifies this`phases, this`posts
      ensures AtMostOnce(Now()) && |posts| == 1 && old(posts) == []
      ensures posts[0] == CrossChecked(old(phases)[d].a, old(phases)[d].b,
                                       CrossCheck(old(phases)[d].a, old(phases)[d].b, aId, bId))
    {
      var p := phases[d];
      posts := posts + [CrossChecked(p.a, p.b, CrossCheck(p.a, p.b, aId, bId))];
      phases := phases[d := if p.last then Finished else Relaying];
    }

    /** The loop ends: the channel closed, or this direction failed. */
    method LeaveLoop(d: nat, side: nat)
      requires AtMostOnce(Now()) && d < 2 && phases[d].Relaying?
      modifies this`phases
      ensures AtMostOnce(Now()) && phases == old(phases)[d := Ending(side)]
    {
      phases := phases[d := Ending(side)];
    }

    /** ForwarderCompletion: the first failure is remembered, the other direction told to
        stop; whoever is counted out last settles the match, unless the program is stopping. */
    method CompleteForwarder(d: nat, stopping: bool)
      requires AtMostOnce(Now()) && d < 2 && phases[d].Ending?
      modifies this`disconnectSide, this`closed, this`count, this`phases
      ensures AtMostOnce(Now()) && closed && count == old(count) - 1
      ensures phases == old(phases)[d := if old(count) == 1 && !stopping then Last else Finished]
    {
      var side := phases[d].side;
      if side != 0 && !stopping && disconnectSide == 0 { disconnectSide := side; }
      closed := true;
      count := count - 1;
      phases := phases[d := if count == 0 && !stopping then Last else Finished];
    }

    /** finalizeForfeit under its lock: nothing more if the outcome is claimed, cross-check if
        both summaries are there, no post without any, else decide by the one there is. */
    method SettleMatch(d: nat)
      requires AtMostOnce(Now()) && d < 2 && phases[d].Last?
      modifies this`handled, this`phases
      ensures AtMostOnce(Now())
      ensures phases == old(phases)[d :=
                if !ranked || old(handled) || (sumA.None? && sumB.None?) then Finished
                else if sumA.Some? && sumB.Some? then Delegating
                else Deciding(sumA, sumB)]
    {
      if !ranked || handled {
        phases := phases[d := Finished];
        return;
      }
      if sumA.Some? && sumB.Some? {
        phases := phases[d := Delegating];
        return;
      }
      handled := true;
      phases := phases[d := if sumA.None? && sumB.None? then Finished else Deciding(sumA, sumB)];
    }

    /** finalizeForfeit outside its lock. */
    method PostDecision(d: nat)
      requires AtMostOnce(Now()) && d < 2 && phases[d].Deciding?
      modifies this`phases, this`posts
      ensures AtMostOnce(Now()) && |posts| == 1 && old(posts) == []
      ensures posts[0] == Forfeited(sumA, sumB, Forfeit(sumA, sumB, aId, bId))
    {
      var p := phases[d];
      posts := posts + [Forfeited(p.onlyA, p.onlyB, Forfeit(p.onlyA, p.onlyB, aId, bId))];
      phases := phases[d := Finished];
    }

    method Take(step: Step)
      requires AtMostOnce(Now())
      modifies this
      ensures AtMostOnce(Now()) && old(posts) <= posts
    {
      match step
      case Collect(d, s) => if d < 2 && phases[d].Relaying? && ranked { CollectSummary(d, s); }
      case Claim(d) => if d < 2 && (phases[d].Relaying? || phases[d].Delegating?) { ClaimRanked(d); }
      case PostRanked(d) => if d < 2 && phases[d].Posting? { PostCrossCheck(d); }
      case EndLoop(d, side) => if d < 2 && phases[d].Relaying? { LeaveLoop(d, side); }
      case Complete(d, stopping) => if d < 2 && phases[d].Ending? { CompleteForwarder(d, stopping); }
      case SettleForfeit(d) => if d < 2 && phases[d].Last? { SettleMatch(d); }
      case PostForfeit(d) => if d < 2 && phases[d].Deciding? { PostDecision(d); }
    }

    /** In every interleaving: at most one post, and the one the summaries deserve. */
    method Run(schedule: seq<Step>)
      requires AtMostOnce(Now())
      modifies this
      ensures AtMostOnce(Now()) && |posts| <= 1
      ensures |posts| == 1 && sumA.Some? && sumB.Some? ==> posts[0].CrossChecked?
    {
      var i := 0;
      while i < |schedule|
        invariant AtMostOnce(Now())
      {
        Take(schedule[i]);
        i := i + 1;
      }
      AtMostOnePost(Now());
    }
  }
}
