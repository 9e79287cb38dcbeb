/** The tick of src/main.cpp as a function of both players' inputs: two boards advance by one
    tick and pass each other the attacks they made. */
module Duel {
  import opened Bytes
  import opened SimGrid
  import opened SimRules
  import opened Steering
  import opened SimGame

  /** One client's view: its own board, the opponent's, and how much of each one's attack has
      been handed over. */
  datatype Duel = Duel(local: Game, remote: Game, handedLocal: int, handedRemote: int)

  function Start(seed: nat): Duel { Duel(NewGame(seed), NewGame(seed), 0, 0) }

  function Moved(g: Game, mask: nat): Game { Ticked(Submitted(g, mask)) }

  /** Both boards take their input and gravity; new attack lines wait on the other board. */
  function Advanced(d: Duel, mine: nat, theirs: nat): Duel {
    var l, r := Moved(d.local, mine), Moved(d.remote, theirs);
    Duel(Threatened(l, r.attack - d.handedRemote), Threatened(r, l.attack - d.handedLocal), l.attack, r.attack)
  }

  predicate Over(d: Duel) { d.local.over || d.remote.over }

  /** How a duel starts and what a tick makes of it.  What holds of lockstep play holds for
      any deterministic rules that treat both sides alike. */
  datatype Rules = Rules(start: Duel, step: (Duel, nat, nat) -> Duel)

  function Tetris(seed: nat): Rules {
    Rules(Start(seed), (d: Duel, mine: nat, theirs: nat) => Advanced(d, mine, theirs))
  }

  /** The duel after as many ticks as inputs. */
  function Fought(rules: Rules, mine: seq<nat>, theirs: seq<nat>): Duel
    requires |mine| == |theirs|
  {
    var n := |mine|;
    if n == 0 then rules.start
    else rules.step(Fought(rules, mine[..n - 1], theirs[..n - 1]), mine[n - 1], theirs[n - 1])
  }

  function Swapped(d: Duel): Duel { Duel(d.remote, d.local, d.handedRemote, d.handedLocal) }

  // ---------------------------------------------------------------- mirrors

  /** Seen from the other side, a tick is the same tick. */
  ghost predicate Fair(rules: Rules) {
    Swapped(rules.start) == rules.start &&
    forall d, mine, theirs :: Swapped(rules.step(d, mine, theirs)) == rules.step(Swapped(d), theirs, mine)
  }

  lemma TetrisIsFair(seed: nat)
    ensures Fair(Tetris(seed))
  {
    forall d, mine: nat, theirs: nat
      ensures Swapped(Advanced(d, mine, theirs)) == Advanced(Swapped(d), theirs, mine)
    {
      AdvancedSwaps(d, mine, theirs);
    }
  }

  lemma AdvancedSwaps(d: Duel, mine: nat, theirs: nat)
    ensures Swapped(Advanced(d, mine, theirs)) == Advanced(Swapped(d), theirs, mine)
  {}

  lemma {:induction false} FoughtSwaps(rules: Rules, mine: seq<nat>, theirs: seq<nat>)
    requires Fair(rules) && |mine| == |theirs|
    ensures Swapped(Fought(rules, mine, theirs)) == Fought(rules, theirs, mine)
    decreases |mine|
  {
    var n := |mine|;
    if n > 0 {
      FoughtSwaps(rules, mine[..n - 1], theirs[..n - 1]);
    }
  }

  /** Mirror agreement: two clients that have simulated the same inputs hold each other's
      boards, and the combination of any hash of the two boards is the same on both. */
  lemma MirrorsAgree(rules: Rules, mine: seq<nat>, theirs: seq<nat>, hash: Game -> nat)
    requires Fair(rules) && |mine| == |theirs|
    ensures var a, b := Fought(rules, mine, theirs), Fought(rules, theirs, mine);
            a.local == b.remote && a.remote == b.local &&
            Xor(hash(a.local), hash(a.remote)) == Xor(hash(b.local), hash(b.remote))
  {
    var a, b := Fought(rules, mine, theirs), Fought(rules, theirs, mine);
    FoughtSwaps(rules, mine, theirs);
    assert b == Swapped(a);
    XorSymmetric(hash(a.local), hash(a.remote));
  }

  // ---------------------------------------------------------------- whose keys move what

  /** One tick of one board: the keys, unless its game is over, and then gravity. */
  ghost predicate Ticks(g: Game, h: Game, mask: nat) {
    exists m :: (if g.over then m == g else Obeys(g, m, mask)) && Pulled(m, h)
  }

  lemma MovedTicks(g: Game, mask: nat)
    requires GameOk(g)
    ensures Ticks(g, Moved(g, mask), mask)
  {
    InputObeys(g, mask);
    SubmittedOk(g, mask);
    TickedPulled(Submitted(g, mask));
  }

  /** Each board obeys its own player, and gets, to wait, what the other has newly sent. */
  ghost predicate Plays(d: Duel, e: Duel, mine: nat, theirs: nat) {
    exists l, r :: Ticks(d.local, l, mine) && Ticks(d.remote, r, theirs) && HandsOver(d, e, l, r)
  }

  ghost predicate HandsOver(d: Duel, e: Duel, l: Game, r: Game) {
    e.local == l.(pending := l.pending + AtLeastNone(r.attack - d.handedRemote)) && e.handedRemote == r.attack &&
    e.remote == r.(pending := r.pending + AtLeastNone(l.attack - d.handedLocal)) && e.handedLocal == l.attack
  }

  function AtLeastNone(x: int): nat { if x < 0 then 0 else x }

  lemma AdvancedPlays(d: Duel, mine: nat, theirs: nat)
    requires GameOk(d.local) && GameOk(d.remote)
    ensures Plays(d, Advanced(d, mine, theirs), mine, theirs)
  {
    MovedTicks(d.local, mine);
    MovedTicks(d.remote, theirs);
    PassedOn(d, Advanced(d, mine, theirs), Moved(d.local, mine), Moved(d.remote, theirs), mine, theirs);
  }

  lemma PassedOn(d: Duel, e: Duel, l: Game, r: Game, mine: nat, theirs: nat)
    requires Ticks(d.local, l, mine) && Ticks(d.remote, r, theirs)
    requires e == Duel(Threatened(l, r.attack - d.handedRemote), Threatened(r, l.attack - d.handedLocal),
                       l.attack, r.attack)
    ensures Plays(d, e, mine, theirs)
  {
    assert HandsOver(d, e, l, r);
  }

  /** A game played alone. */
  function Alone(seed: nat, masks: seq<nat>): Game {
    if |masks| == 0 then NewGame(seed) else Moved(Alone(seed, masks[..|masks| - 1]), masks[|masks| - 1])
  }

  /** As long as nobody sends garbage, each player's board is what its own inputs alone make of
      it. */
  lemma {:induction false} NothingSent(seed: nat, mine: seq<nat>, theirs: seq<nat>)
    requires |mine| == |theirs|
    requires var d := Fought(Tetris(seed), mine, theirs); d.local.attack == 0 && d.remote.attack == 0
    ensures var d := Fought(Tetris(seed), mine, theirs);
            d.local == Alone(seed, mine) && d.remote == Alone(seed, theirs) && d.handedLocal == d.handedRemote == 0
    decreases |mine|
  {
    var n := |mine|;
    if n > 0 {
      var a, b := mine[..n - 1], theirs[..n - 1];
      var d := Fought(Tetris(seed), a, b);
      FoughtOk(seed, a, b);
      MoveConserves(d.local, mine[n - 1]);
      MoveConserves(d.remote, theirs[n - 1]);
      NothingSent(seed, a, b);
    }
  }

  // ---------------------------------------------------------------- garbage

  /** Every line one board ever sent either waits on the other board or has come in there. */
  ghost predicate Balanced(d: Duel) {
    d.local.pending + d.local.taken == d.remote.attack && d.handedRemote == d.remote.attack &&
    d.remote.pending + d.remote.taken == d.local.attack && d.handedLocal == d.local.attack
  }

  lemma MoveConserves(g: Game, mask: nat)
    ensures Conserves(g, Moved(g, mask))
  {
    SubmitConserves(g, mask);
    TickConserves(Submitted(g, mask));
  }

  lemma AdvancedBalances(d: Duel, mine: nat, theirs: nat)
    requires Balanced(d)
    ensures Balanced(Advanced(d, mine, theirs))
  {
    MoveConserves(d.local, mine);
    MoveConserves(d.remote, theirs);
    HandedOver(Moved(d.local, mine), Moved(d.remote, theirs), d);
  }

  lemma HandedOver(l: Game, r: Game, d: Duel)
    requires Balanced(d) && Conserves(d.local, l) && Conserves(d.remote, r)
    ensures Balanced(Duel(Threatened(l, r.attack - d.handedRemote), Threatened(r, l.attack - d.handedLocal),
                          l.attack, r.attack))
  {}

  /** Garbage conservation, at every tick of every duel. */
  lemma {:induction false} GarbageBalances(seed: nat, mine: seq<nat>, theirs: seq<nat>)
    requires |mine| == |theirs|
    ensures Balanced(Fought(Tetris(seed), mine, theirs))
    decreases |mine|
  {
    var n := |mine|;
    if n == 0 {
      NewGameOk(seed);
    } else {
      var a, b := mine[..n - 1], theirs[..n - 1];
      GarbageBalances(seed, a, b);
      AdvancedBalances(Fought(Tetris(seed), a, b), mine[n - 1], theirs[n - 1]);
    }
  }

  // ---------------------------------------------------------------- both games stay in order

  lemma MoveOk(g: Game, mask: nat)
    requires GameOk(g)
    ensures GameOk(Moved(g, mask))
  {
    SubmittedOk(g, mask);
    TickedOk(Submitted(g, mask));
  }

  lemma ThreatenedOk(g: Game, rows: int)
    requires GameOk(g)
    ensures GameOk(Threatened(g, rows))
  {}

  /** Whatever the inputs, at every tick of every duel both games are in order. */
  lemma {:induction false} FoughtOk(seed: nat, mine: seq<nat>, theirs: seq<nat>)
    requires |mine| == |theirs|
    ensures var d := Fought(Tetris(seed), mine, theirs);
            GameOk(d.local) && GameOk(d.remote)
    decreases |mine|
  {
    var n := |mine|;
    NewGameOk(seed);
    if n > 0 {
      var a, b := mine[..n - 1], theirs[..n - 1];
      FoughtOk(seed, a, b);
      AdvancedOk(Fought(Tetris(seed), a, b), mine[n - 1], theirs[n - 1]);
    }
  }

  lemma AdvancedOk(d: Duel, mine: nat, theirs: nat)
    requires GameOk(d.local) && GameOk(d.remote)
    ensures GameOk(Advanced(d, mine, theirs).local) && GameOk(Advanced(d, mine, theirs).remote)
  {
    MoveOk(d.local, mine);
    MoveOk(d.remote, theirs);
    var l, r := Moved(d.local, mine), Moved(d.remote, theirs);
    ThreatenedOk(l, r.attack - d.handedRemote);
    ThreatenedOk(r, l.attack - d.handedLocal);
  }

  // ---------------------------------------------------------------- where a duel stops

  /** The simulation has not run past the end of a game. */
  ghost predicate Running(rules: Rules, mine: seq<nat>, theirs: seq<nat>) {
    |mine| == |theirs| && forall k :: 0 <= k < |mine| ==> !Over(Fought(rules, mine[..k], theirs[..k]))
  }

  /** Two clients that stop when a game is over stop at the same tick. */
  lemma StopTogether(rules: Rules, a: seq<nat>, b: seq<nat>, n: nat, m: nat)
    requires Fair(rules)
    requires n <= |a| && n <= |b| && m <= |a| && m <= |b|
    requires Running(rules, a[..n], b[..n]) && Running(rules, b[..m], a[..m])
    requires Over(Fought(rules, a[..n], b[..n])) && Over(Fought(rules, b[..m], a[..m]))
    ensures n == m
  {
    if n < m {
      NotYetOver(rules, b, a, n, m);
      FoughtSwaps(rules, a[..n], b[..n]);
      assert false;
    } else if m < n {
      NotYetOver(rules, a, b, m, n);
      FoughtSwaps(rules, b[..m], a[..m]);
      assert false;
    }
  }

  lemma NotYetOver(rules: Rules, mine: seq<nat>, theirs: seq<nat>, k: nat, n: nat)
    requires k < n <= |mine| && n <= |theirs| && Running(rules, mine[..n], theirs[..n])
    ensures !Over(Fought(rules, mine[..k], theirs[..k]))
  {
    assert mine[..n][..k] == mine[..k] && theirs[..n][..k] == theirs[..k];
  }
}
