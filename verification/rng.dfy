/**
 The seedable pseudo-random generator (Mulberry32) and the draw streams the
 generators consume.

 A call of the generator returns a float `u / 2^32` for a 32-bit unsigned `u`.
 The model keeps the integer `u` (a `Draw`) and writes every use of the float
 as exact integer arithmetic on it.
 */
module Rng {

  const TwoPow32: int := 0x1_0000_0000

  /** The generator's increment, added to the state before every output. */
  const Increment: int := 0x6D2B79F5

  /** One output of the generator, scaled to an integer: rnd() == u / 2^32. */
  type Draw = u: int | 0 <= u < TwoPow32

  /** The outputs of one generator instance, by call number (0 = first call). */
  type Stream = nat -> Draw

  /**
   The output mixing of Mulberry32 applied to the 32-bit accumulated state.
   Math.imul, `^`, `|` and `>>>` all act modulo 2^32, which is what bv32
   arithmetic does; `>>>` is the logical shift `>>` on bv32.
   */
  function Mix(a: bv32): bv32 {
    var t1 := (a ^ (a >> 15)) * (a | 1);
    var t2 := t1 ^ (t1 + (t1 ^ (t1 >> 7)) * (t1 | 61));
    t2 ^ (t2 >> 14)
  }

  /** The output for a given (unbounded) accumulator value. */
  function Output(acc: nat): (u: Draw)
  {
    Mix((acc % TwoPow32) as bv32) as int
  }

  /**
   The stateful generator: the accumulator is advanced by `Increment` and the
   new accumulator is turned into an output by `out` (Mulberry32 uses
   `Output`). The accumulator is a JavaScript number; it stays an exact
   integer for millions of calls, so it is modelled as a `nat`.
   */
  function Next(out: nat -> Draw, acc: nat): (r: (nat, Draw))
    ensures r.0 == acc + Increment
  {
    var acc' := acc + Increment;
    (acc', out(acc'))
  }

  /** The first `n` outputs obtained by calling the stateful generator `n` times. */
  function Take(out: nat -> Draw, acc: nat, n: nat): (r: seq<Draw>)
    ensures |r| == n
    decreases n
  {
    if n == 0 then []
    else
      var (acc', u) := Next(out, acc);
      [u] + Take(out, acc', n - 1)
  }

  /**
   The generator as a stream: the i-th call sees the accumulator
   seed + (i + 1) * Increment, so the i-th output has a closed form.
   */
  function Mulberry32(seed: nat): Stream
  {
    (i: nat) => Output(seed + (i + 1) * Increment)
  }

  /** The i-th of the first n outputs is the output for accumulator acc + (i + 1) * Increment. */
  lemma {:induction false} TakeAt(out: nat -> Draw, acc: nat, n: nat, i: nat)
    requires i < n
    ensures Take(out, acc, n)[i] == out(acc + (i + 1) * Increment)
    decreases i
  {
    if i > 0 {
      var acc' := acc + Increment;
      assert Take(out, acc, n)[i] == Take(out, acc', n - 1)[i - 1];
      TakeAt(out, acc', n - 1, i - 1);
      assert acc' + i * Increment == acc + (i + 1) * Increment;
    }
  }

  /** The i-th output of the stream is the output for accumulator seed + (i + 1) * Increment. */
  lemma StreamAt(seed: nat, i: nat)
    ensures Mulberry32(seed)(i) == Output(seed + (i + 1) * Increment)
  {
  }

  /** Calling the stateful Mulberry32 generator agrees with the closed-form stream, call by call. */
  lemma TakeMatchesStream(seed: nat, n: nat)
    ensures forall i :: 0 <= i < n ==> Take(Output, seed, n)[i] == Mulberry32(seed)(i)
  {
    forall i | 0 <= i < n
      ensures Take(Output, seed, n)[i] == Mulberry32(seed)(i)
    {
      TakeAt(Output, seed, n, i);
      StreamAt(seed, i);
    }
  }

  /** Math.floor(rnd() * n) for a positive integer n: an index below n. */
  function Scaled(u: Draw, n: nat): (r: nat)
    requires n > 0
    ensures r < n
    ensures r * TwoPow32 <= u * n < (r + 1) * TwoPow32
  {
    (u * n) / TwoPow32
  }

  /** rnd() < 0.08 holds for a draw u exactly when u is below this (0.08 * 2^32 = 343597383.68...): a wall. */
  const WallThreshold: nat := 343597384

  /** rnd() < 0.06 holds for a draw u exactly when u is below this (0.06 * 2^32 = 257698037.76...): a resource. */
  const ResourceThreshold: nat := 257698038
}
