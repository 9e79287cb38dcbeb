/** The pieces of a game come in sevens (src/sim_game.cpp: GetRandomBlock): whatever is played on
    a board, the pieces dealt to it since the start, seven by seven, are every piece once. */
module SevenBag {
  import opened SimGrid
  import opened SimBlock
  import opened Rng
  import opened SimRules
  import opened SimGame
  import opened Duel

  /** Sevens of every piece once; those of the seven under way and those left in the bag are
      every piece once. */
  ghost predicate Sevens(dealt: seq<nat>, bag: seq<nat>)
    decreases |dealt|
  {
    if |dealt| < 7 then UnderWay(dealt, bag)
    else multiset(dealt[..7]) == multiset(AllBlocks()) && Sevens(dealt[7..], bag)
  }

  ghost predicate UnderWay(dealt: seq<nat>, bag: seq<nat>) {
    |dealt| + |Refilled(bag)| == 7 && multiset(dealt) + multiset(Refilled(bag)) == multiset(AllBlocks())
  }

  lemma TakeOut(bag: seq<nat>, i: nat)
    requires i < |bag|
    ensures multiset(bag) == multiset{bag[i]} + multiset(Without(bag, i))
    ensures |Without(bag, i)| == |bag| - 1
  {
    assert bag == bag[..i] + ([bag[i]] + bag[i + 1..]);
  }

  lemma UnderWayDealt(dealt: seq<nat>, bag: seq<nat>, i: nat, x: nat, rest: seq<nat>)
    requires UnderWay(dealt, bag) && i < |Refilled(bag)| && x == Refilled(bag)[i] && rest == Without(Refilled(bag), i)
    ensures |rest| == 6 - |dealt| && multiset(dealt + [x]) + multiset(rest) == multiset(AllBlocks())
  {
    TakeOut(Refilled(bag), i);
  }

  lemma FirstSevenDealt(dealt: seq<nat>, bag: seq<nat>, i: nat, x: nat, rest: seq<nat>)
    requires UnderWay(dealt, bag) && i < |Refilled(bag)| && x == Refilled(bag)[i] && rest == Without(Refilled(bag), i)
    requires |dealt| < 7
    ensures Sevens(dealt + [x], rest)
  {
    UnderWayDealt(dealt, bag, i, x, rest);
    if |dealt| == 6 {
      assert rest == [];
      SevenComplete(dealt + [x]);
    } else {
      assert UnderWay(dealt + [x], rest);
    }
  }

  lemma SevenComplete(seven: seq<nat>)
    requires |seven| == 7 && multiset(seven) == multiset(AllBlocks())
    ensures Sevens(seven, [])
  {
    assert UnderWay([], []);
    SevensCons(seven, [], []);
    assert seven + [] == seven;
  }

  /** Whichever piece of the bag is dealt next. */
  lemma {:induction false} DealtSevens(dealt: seq<nat>, bag: seq<nat>, i: nat, x: nat, rest: seq<nat>)
    requires Sevens(dealt, bag) && i < |Refilled(bag)| && x == Refilled(bag)[i] && rest == Without(Refilled(bag), i)
    ensures Sevens(dealt + [x], rest)
    decreases |dealt|
  {
    if |dealt| < 7 {
      FirstSevenDealt(dealt, bag, i, x, rest);
    } else {
      var seven, tail := dealt[..7], dealt[7..];
      DealtSevens(tail, bag, i, x, rest);
      SevensCons(seven, tail + [x], rest);
      Associate(seven, tail, [x]);
      assert seven + tail == dealt;
    }
  }

  lemma SevensCons(seven: seq<nat>, dealt: seq<nat>, bag: seq<nat>)
    requires |seven| == 7 && multiset(seven) == multiset(AllBlocks()) && Sevens(dealt, bag)
    ensures Sevens(seven + dealt, bag)
  {
    assert (seven + dealt)[..7] == seven && (seven + dealt)[7..] == dealt;
  }

  /** Every seven of the pieces dealt is all seven pieces. */
  lemma {:induction false} SevensAre(dealt: seq<nat>, bag: seq<nat>, k: nat)
    requires Sevens(dealt, bag) && 7 * k + 7 <= |dealt|
    ensures multiset(dealt[7 * k..7 * k + 7]) == multiset(AllBlocks())
    decreases k
  {
    if k == 0 {
      assert dealt[0..7] == dealt[..7];
    } else {
      SevensAre(dealt[7..], bag, k - 1);
      assert dealt[7..][7 * (k - 1)..7 * (k - 1) + 7] == dealt[7 * k..7 * k + 7];
    }
  }

  // ---------------------------------------------------------------- what dealing keeps, every move keeps

  /** The current piece and the preview are the last pieces dealt, in the order dealt. */
  ghost predicate Queued(g: Game) {
    var first := |g.dealt| - |g.next|;
    |g.next| > 0 && first > 0 && g.current.id == g.dealt[first - 1] &&
    forall i :: 0 <= i < |g.next| ==> g.next[i].id == g.dealt[first + i]
  }

  /** A property of what was dealt and what is left in the bag. */
  type Hand = (seq<nat>, seq<nat>) -> bool

  ghost predicate KeptByDealing(p: Hand) {
    forall dealt, bag, i: nat :: p(dealt, bag) && i < |Refilled(bag)| ==>
      p(dealt + [Refilled(bag)[i]], Without(Refilled(bag), i))
  }

  ghost predicate Holds(p: Hand, g: Game) { p(g.dealt, g.bag) && Queued(g) }

  lemma SevensKept()
    ensures KeptByDealing((dealt, bag) => Sevens(dealt, bag))
  {
    forall dealt, bag, i: nat | Sevens(dealt, bag) && i < |Refilled(bag)|
      ensures Sevens(dealt + [Refilled(bag)[i]], Without(Refilled(bag), i))
    {
      DealtSevens(dealt, bag, i, Refilled(bag)[i], Without(Refilled(bag), i));
    }
  }

  lemma DealtHolds(p: Hand, g: Game)
    requires KeptByDealing(p) && p(g.dealt, g.bag)
    ensures p(Dealt(g).dealt, Dealt(g).bag)
  {}

  lemma LockHolds(p: Hand, g: Game)
    requires KeptByDealing(p) && Holds(p, g)
    ensures Holds(p, Locked(g))
  {
    var e := Entered(Stamped(g));
    DealtHolds(p, e);
    assert Holds(p, Dealt(e));
    SettledHolds(p, Dealt(e), IsTSpin(g));
  }

  lemma SameHand(p: Hand, g: Game, h: Game)
    requires Holds(p, g) && h.dealt == g.dealt && h.bag == g.bag && h.next == g.next && h.current.id == g.current.id
    ensures Holds(p, h)
  {}

  lemma SettledHolds(p: Hand, g: Game, tspin: bool)
    requires Holds(p, g)
    ensures Holds(p, Attacked(Credited(g, tspin)))
  {
    SameHand(p, g, Credited(g, tspin));
    AttackHolds(p, Credited(g, tspin));
  }

  lemma AttackHolds(p: Hand, g: Game)
    requires Holds(p, g)
    ensures Holds(p, Attacked(g))
  {
    SameHand(p, g, Attacked(g));
  }

  lemma LowerHolds(p: Hand, g: Game)
    requires KeptByDealing(p) && Holds(p, g)
    ensures Holds(p, Lowered(g))
  {
    if !g.over && !Fits(g.board, g.current.Moved(1, 0)) {
      LockHolds(p, g);
    } else {
      SameHand(p, g, Lowered(g));
    }
  }

  lemma DropHolds(p: Hand, g: Game)
    requires KeptByDealing(p) && Holds(p, g)
    ensures Holds(p, Dropped(g))
  {
    LandingIsBelow(g.board, g.current);
    LockHolds(p, g.(current := DropTarget(g.board, g.current)));
  }

  lemma SoftHolds(p: Hand, g: Game, held: bool)
    requires KeptByDealing(p) && Holds(p, g)
    ensures Holds(p, SoftDropped(g, held))
  {
    if held && g.soft <= 0 {
      LowerHolds(p, g);
      SameHand(p, Lowered(g), Lowered(g).(soft := SOFT_DROP_TICKS));
    } else {
      SameHand(p, g, SoftDropped(g, held));
    }
  }

  lemma SlideHolds(p: Hand, g: Game, held: bool, cols: int)
    requires Holds(p, g)
    ensures Holds(p, ShiftedIf(g, held, cols)) && Holds(p, TurnedIf(g, held))
  {}

  lemma SteerHolds(p: Hand, g: Game, mask: nat)
    requires KeptByDealing(p) && Holds(p, g)
    ensures Holds(p, Steered(g, mask))
  {
    var left := ShiftedIf(g, HasInput(mask, INPUT_LEFT), -1);
    var n := Nudged(g, mask);
    SlideHolds(p, g, HasInput(mask, INPUT_LEFT), -1);
    SlideHolds(p, left, HasInput(mask, INPUT_RIGHT), 1);
    SoftHolds(p, n, HasInput(mask, INPUT_DOWN));
    SlideHolds(p, SoftDropped(n, HasInput(mask, INPUT_DOWN)), HasInput(mask, INPUT_ROTATE), 0);
  }

  lemma MoveHolds(p: Hand, g: Game, mask: nat)
    requires KeptByDealing(p) && Holds(p, g)
    ensures Holds(p, Moved(g, mask))
  {
    SteerHolds(p, g, mask);
    DropHolds(p, Steered(g, mask));
    TickHolds(p, Submitted(g, mask));
  }

  lemma TickHolds(p: Hand, g: Game)
    requires KeptByDealing(p) && Holds(p, g)
    ensures Holds(p, Ticked(g))
  {
    if !g.over && g.gravity + 1 >= g.interval {
      SameHand(p, g, g.(gravity := 0));
      LowerHolds(p, g.(gravity := 0));
    } else {
      SameHand(p, g, Ticked(g));
    }
  }

  lemma ThreatHolds(p: Hand, g: Game, rows: int)
    requires Holds(p, g)
    ensures Holds(p, Threatened(g, rows))
  {}

  lemma AdvanceHolds(p: Hand, d: Duel, mine: nat, theirs: nat)
    requires KeptByDealing(p) && Holds(p, d.local) && Holds(p, d.remote)
    ensures Holds(p, Advanced(d, mine, theirs).local) && Holds(p, Advanced(d, mine, theirs).remote)
  {
    var l, r := Moved(d.local, mine), Moved(d.remote, theirs);
    MoveHolds(p, d.local, mine);
    MoveHolds(p, d.remote, theirs);
    ThreatHolds(p, l, r.attack - d.handedRemote);
    ThreatHolds(p, r, l.attack - d.handedLocal);
  }

  lemma PlaceHolds(p: Hand, g: Game, col: int, rot: nat)
    requires KeptByDealing(p) && Holds(p, g)
    ensures Holds(p, PlacedAt(g, col, rot))
  {
    LandingIsBelow(g.board, Aimed(g.current, col, rot));
    LockHolds(p, g.(current := Landing(g.board, Aimed(g.current, col, rot)), rotatedLast := false));
  }

  // ---------------------------------------------------------------- whole games

  /** Before the first piece enters: what was dealt is the preview. */
  ghost predicate Previewed(p: Hand, g: Game) {
    p(g.dealt, g.bag) && |g.dealt| == |g.next| && forall i :: 0 <= i < |g.next| ==> g.next[i].id == g.dealt[i]
  }

  lemma {:induction false} DealtTimesHolds(p: Hand, g: Game, n: nat)
    requires KeptByDealing(p) && Previewed(p, g)
    ensures Previewed(p, DealtTimes(g, n)) && |DealtTimes(g, n).next| == |g.next| + n
    decreases n
  {
    if n > 0 {
      DealtHolds(p, g);
      DealtTimesHolds(p, Dealt(g), n - 1);
    }
  }

  lemma NewGameHolds(p: Hand, seed: nat)
    requires KeptByDealing(p) && p([], AllBlocks())
    ensures Holds(p, NewGame(seed))
  {
    var s := if seed == 0 then 0xC0FFEE123456789 else seed;
    StartHolds(p, Seeded(s), Seeded(Forked(s)), PREVIEW + 1);
  }

  lemma StartHolds(p: Hand, rng: nat, holes: nat, n: nat)
    requires KeptByDealing(p) && p([], AllBlocks()) && n > 1
    ensures Holds(p, FirstEntered(DealtTimes(Undealt(rng, holes), n)))
  {
    DealtTimesHolds(p, Undealt(rng, holes), n);
  }

  lemma {:induction false} PlayedHolds(p: Hand, g: Game, acts: seq<Act>)
    requires KeptByDealing(p) && Holds(p, g)
    ensures Holds(p, Played(g, acts))
  {
    if |acts| > 0 {
      PlayedHolds(p, g, acts[..|acts| - 1]);
      var before := Played(g, acts[..|acts| - 1]);
      match acts[|acts| - 1]
      case Garbage(_) =>
      case Place(col, rot) =>
        if Legal(before, col, rot) { PlaceHolds(p, before, col, rot); }
    }
  }

  lemma {:induction false} FoughtHolds(p: Hand, seed: nat, mine: seq<nat>, theirs: seq<nat>)
    requires KeptByDealing(p) && p([], AllBlocks()) && |mine| == |theirs|
    ensures Holds(p, Fought(Tetris(seed), mine, theirs).local) && Holds(p, Fought(Tetris(seed), mine, theirs).remote)
    decreases |mine|
  {
    var n := |mine|;
    NewGameHolds(p, seed);
    if n > 0 {
      var a, b := mine[..n - 1], theirs[..n - 1];
      FoughtHolds(p, seed, a, b);
      AdvanceHolds(p, Fought(Tetris(seed), a, b), mine[n - 1], theirs[n - 1]);
    }
  }

  lemma FullBag()
    ensures Sevens([], AllBlocks())
  {
    assert UnderWay([], AllBlocks());
  }

  /** Over every run of placements and garbage from a new game: every seven of the pieces dealt
      is every piece once, and the piece in play and the preview are the last ones dealt. */
  lemma PlayedInSevens(seed: nat, acts: seq<Act>, k: nat)
    ensures var g := Played(NewGame(seed), acts);
            Queued(g) &&
            (7 * k + 7 <= |g.dealt| ==> multiset(g.dealt[7 * k..7 * k + 7]) == multiset(AllBlocks()))
  {
    var p: Hand := (dealt, bag) => Sevens(dealt, bag);
    SevensKept();
    FullBag();
    NewGameHolds(p, seed);
    PlayedHolds(p, NewGame(seed), acts);
    var g := Played(NewGame(seed), acts);
    if 7 * k + 7 <= |g.dealt| { SevensAre(g.dealt, g.bag, k); }
  }

  /** The same on both boards of every duel, whatever the inputs. */
  lemma FoughtInSevens(seed: nat, mine: seq<nat>, theirs: seq<nat>, k: nat)
    requires |mine| == |theirs|
    ensures var d := Fought(Tetris(seed), mine, theirs);
            Queued(d.local) && Queued(d.remote) &&
            (7 * k + 7 <= |d.local.dealt| ==> multiset(d.local.dealt[7 * k..7 * k + 7]) == multiset(AllBlocks())) &&
            (7 * k + 7 <= |d.remote.dealt| ==> multiset(d.remote.dealt[7 * k..7 * k + 7]) == multiset(AllBlocks()))
  {
    var p: Hand := (dealt, bag) => Sevens(dealt, bag);
    SevensKept();
    FullBag();
    FoughtHolds(p, seed, mine, theirs);
    var d := Fought(Tetris(seed), mine, theirs);
    if 7 * k + 7 <= |d.local.dealt| { SevensAre(d.local.dealt, d.local.bag, k); }
    if 7 * k + 7 <= |d.remote.dealt| { SevensAre(d.remote.dealt, d.remote.bag, k); }
  }
}
