/** core/rng.h: xorshift64*, the only source of randomness of the simulation.  A generator is
    copied along with the game that owns it, so it is the value of its 64-bit state. */
module Rng {
  import opened Bytes

  const WORD: nat := 0x1_0000_0000_0000_0000
  const DEFAULT_SEED: nat := 88172645463393265
  const MULTIPLIER: nat := 2685821657736338717

  function Seeded(seed: nat): nat { if seed == 0 then DEFAULT_SEED else seed }

  /** The seed of a second stream, forked off the first. */
  function Forked(seed: nat): nat { Xor(seed, 0x9E3779B97F4A7C15) }

  /** The next state. */
  function Step(state: nat): nat {
    var a := Xor(state, state / 0x1000);
    var b := Xor(a, a * 0x200_0000 % WORD);
    Xor(b, b / 0x800_0000)
  }

  /** The 64-bit number a state yields. */
  function Raw(state: nat): nat { Step(state) * MULTIPLIER % WORD }

  /** A raw number brought below the bound. */
  function Below(raw: nat, bound: nat): (v: nat)
    ensures bound > 0 ==> v < bound
  {
    raw % (if bound == 0 then 1 else bound)
  }

  function Draw(state: nat, bound: nat): nat { Below(Raw(state), bound) }
}
