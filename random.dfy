/**
 * `Random` (loki/math/random.js): a generator whose state is a `Uint32Array` of six words.
 * Words 0..3 are the xorshift state, word 4 is the Weyl counter of xorwow and word 5 holds
 * the last output. The state lives in a six-word array that the operations rewrite in place.
 *
 * JavaScript's bit operators work on the int32 reading of a number and yield an int32; the
 * words hold the same bits as unsigned values. Every operation below is stated on the
 * unsigned reading, which is what the `Uint32Array` keeps when a result is stored back.
 */
module Randoms {
  import opened Wrappers
  import TypedArrays

  const TWO_32: int := TypedArrays.TWO_32

  /** A slot of the `Uint32Array`. */
  type Word = x: int | 0 <= x < 0x1_0000_0000

  /** The constant the Weyl counter grows by on every step. */
  const WEYL: Word := 362437

  /** 2^k. */
  function Pow2(k: nat): (r: nat)
    ensures r >= 1
  {
    if k == 0 then 1 else 2 * Pow2(k - 1)
  }

  /** 2^(a + b) is 2^a times 2^b. */
  lemma {:induction false} Pow2Plus(a: nat, b: nat)
    ensures Pow2(a + b) == Pow2(a) * Pow2(b)
  {
    if a > 0 {
      Pow2Plus(a - 1, b);
    }
  }

  /** 2^32 is the modulus of the words. */
  lemma Pow2Of32()
    ensures Pow2(32) == TWO_32
  {
    assert Pow2(4) == 16;
    Pow2Plus(4, 4);
    Pow2Plus(8, 8);
    Pow2Plus(16, 16);
  }

  /** The low `k` bits of `a ^ b`, built bit by bit from the lowest one up. */
  function XorBits(a: nat, b: nat, k: nat): (r: nat)
    ensures r < Pow2(k)
  {
    if k == 0 then 0 else 2 * XorBits(a / 2, b / 2, k - 1) + (a % 2 + b % 2) % 2
  }

  /** `a ^ b` on words. */
  function Xor(a: Word, b: Word): Word
  {
    Pow2Of32();
    XorBits(a, b, 32)
  }

  /** Within `k` bits, an exclusive or is zero exactly when its operands are equal. */
  lemma {:induction false} XorBitsZero(a: nat, b: nat, k: nat)
    requires a < Pow2(k) && b < Pow2(k)
    ensures XorBits(a, b, k) == 0 <==> a == b
  {
    if k > 0 {
      XorBitsZero(a / 2, b / 2, k - 1);
    }
  }

  /** `a ^ b == 0` exactly when `a == b`. */
  lemma XorZero(a: Word, b: Word)
    ensures Xor(a, b) == 0 <==> a == b
  {
    Pow2Of32();
    XorBitsZero(a, b, 32);
  }

  /** `x << 1` on a word: the top bit falls off. */
  function Shl1(x: Word): Word
  {
    (2 * x) % TWO_32
  }

  /** `x << 4` on a word. */
  function Shl4(x: Word): Word
  {
    (16 * x) % TWO_32
  }

  /**
   * `x >> 2` as the source writes it: the int32 value divided by four, rounded down, so the
   * sign bit is copied into the two vacated top bits.
   */
  function Sar2(x: Word): (r: Word)
    ensures x < 0x8000_0000 ==> r == x / 4
    ensures x >= 0x8000_0000 ==> r - TWO_32 == (x - TWO_32) / 4
  {
    if x < 0x8000_0000 then x / 4 else x / 4 + 0xC000_0000
  }

  /** `x >>> 2`: the unsigned shift, which fills the vacated top bits with zeros. */
  function Shr2(x: Word): (r: Word)
    ensures 4 * r <= x < 4 * r + 4
  {
    x / 4
  }

  /** The sum of two words as a `Uint32Array` stores it. */
  function Add(a: Word, b: Word): Word
  {
    (a + b) % TWO_32
  }

  /** The new word 0 of one step as written: `t ^= t >> 2; t ^= t << 1; t ^= s ^ (s << 4)`. */
  function NextW0(s: Word, t: Word): Word
  {
    var t1 := Xor(t, Sar2(t));
    var t2 := Xor(t1, Shl1(t1));
    Xor(t2, Xor(s, Shl4(s)))
  }

  /** The six words after one call of `randomUint32`. */
  function Next(w: seq<Word>): (n: seq<Word>)
    requires |w| == 6
    ensures |n| == 6
  {
    var w0 := NextW0(w[0], w[3]);
    var w4 := Add(w[4], WEYL);
    [w0, w[0], w[1], w[2], w4, Add(w0, w4)]
  }

  /** The six words after `n` steps as written. */
  function Steps(w: seq<Word>, n: nat): (r: seq<Word>)
    requires |w| == 6
    ensures |r| == 6
  {
    if n == 0 then w else Next(Steps(w, n - 1))
  }

  /** The xorshift part of a state: words 0..3. */
  function XorState(w: seq<Word>): seq<Word>
    requires |w| == 6
  {
    w[..4]
  }

  /** Adding after reducing modulo 2^32 is adding before. */
  lemma ModAdd(x: int, k: int)
    ensures (x % TWO_32 + k) % TWO_32 == (x + k) % TWO_32
  {
    var q := x / TWO_32;
    assert x == TWO_32 * q + x % TWO_32;
    assert x + k == (x % TWO_32 + k) + TWO_32 * q;
  }

  /** The sign-copying shift leaves the two words made of equal bits unchanged. */
  lemma SignShiftFixed()
    ensures Sar2(0) == 0 && Sar2(0xFFFF_FFFF) == 0xFFFF_FFFF
  {
  }

  /**
   * The step as written sends the nonzero xorshift state (0, 0, 0, 0xFFFFFFFF) to the zero
   * state: `t ^ (t >> 2)` is zero for t = 0xFFFFFFFF, because `>>` copies the sign bit.
   */
  lemma {:induction false} SignShiftCollapses(counter: Word, last: Word)
    ensures var w := [0, 0, 0, 0xFFFF_FFFF, counter, last];
      XorState(w) != [0, 0, 0, 0] && XorState(Next(w)) == [0, 0, 0, 0]
  {
    SignShiftFixed();
    XorZero(0xFFFF_FFFF, 0xFFFF_FFFF);
    XorZero(0, 0);
    assert Shl1(0) == 0 && Shl4(0) == 0;
    var w: seq<Word> := [0, 0, 0, 0xFFFF_FFFF, counter, last];
    assert w[3] == 0xFFFF_FFFF;
    assert NextW0(0, 0xFFFF_FFFF) == 0;
    assert Next(w)[0] == 0;
  }

  /** The step as written keeps the zero xorshift state zero. */
  lemma {:induction false} ZeroStep(w: seq<Word>)
    requires |w| == 6 && XorState(w) == [0, 0, 0, 0]
    ensures XorState(Next(w)) == [0, 0, 0, 0]
  {
    assert w[0] == 0 && w[1] == 0 && w[2] == 0 && w[3] == 0 by {
      assert XorState(w) == [w[0], w[1], w[2], w[3]];
    }
    XorZero(0, 0);
    assert Shl1(0) == 0 && Shl4(0) == 0 && Sar2(0) == 0;
    assert NextW0(0, 0) == 0;
    assert Next(w)[0] == 0;
  }

  /** Once the xorshift state is zero, every later step keeps it zero. */
  lemma {:induction false} ZeroStaysZero(w: seq<Word>, n: nat)
    requires |w| == 6 && XorState(w) == [0, 0, 0, 0]
    ensures XorState(Steps(w, n)) == [0, 0, 0, 0]
  {
    if n > 0 {
      ZeroStaysZero(w, n - 1);
      var p := Steps(w, n - 1);
      ZeroStep(p);
      assert Steps(w, n) == Next(p);
    }
  }

  /** The new word 0 of one xorwow step with the unsigned shift `t >>> 2` of Marsaglia's xorwow. */
  function XorwowW0(s: Word, t: Word): Word
  {
    var t1 := Xor(t, Shr2(t));
    var t2 := Xor(t1, Shl1(t1));
    Xor(t2, Xor(s, Shl4(s)))
  }

  /** The six words after one xorwow step with the unsigned shift. */
  function XorwowNext(w: seq<Word>): (n: seq<Word>)
    requires |w| == 6
    ensures |n| == 6
  {
    var w0 := XorwowW0(w[0], w[3]);
    var w4 := Add(w[4], WEYL);
    [w0, w[0], w[1], w[2], w4, Add(w0, w4)]
  }

  /** The six words after `n` calls of `randomUint32`. */
  function XorwowSteps(w: seq<Word>, n: nat): (r: seq<Word>)
    requires |w| == 6
    ensures |r| == 6
  {
    if n == 0 then w else XorwowNext(XorwowSteps(w, n - 1))
  }

  /** One step adds 362437 to the counter, modulo 2^32. */
  lemma CounterStep(p: seq<Word>)
    requires |p| == 6
    ensures XorwowNext(p)[4] == (p[4] + 362437) % TWO_32
  {
  }

  /** After `n` calls of `randomUint32` the counter has grown by `n * 362437`, modulo 2^32. */
  lemma {:induction false} CounterAfter(w: seq<Word>, n: nat)
    requires |w| == 6
    ensures XorwowSteps(w, n)[4] == (w[4] + 362437 * n) % TWO_32
  {
    if n > 0 {
      CounterAfter(w, n - 1);
      var p := XorwowSteps(w, n - 1);
      var s := w[4] + 362437 * (n - 1);
      CounterStep(p);
      ModAdd(s, 362437);
      assert s + 362437 == w[4] + 362437 * n;
    }
  }

  /** A nonzero word differs from its shift left by one. */
  lemma ShiftLeftMoves(t: Word)
    requires t != 0
    ensures Shl1(t) != t
  {
    if 2 * t >= TWO_32 {
      assert Shl1(t) == 2 * t - TWO_32;
    }
  }

  /** A nonzero word stays nonzero under `t ^ (t >>> 2)` and under `t ^ (t << 1)`. */
  lemma ScrambleNonzero(t: Word)
    requires t != 0
    ensures Xor(t, Shr2(t)) != 0 && Xor(t, Shl1(t)) != 0
  {
    XorZero(t, Shr2(t));
    ShiftLeftMoves(t);
    XorZero(t, Shl1(t));
  }

  /** Mixing in a zero word 0 changes nothing: `t ^ (0 ^ (0 << 4)) == t`. */
  lemma MixZero(t: Word)
    ensures Xor(t, Xor(0, Shl4(0))) == t
  {
    assert Shl4(0) == 0;
    XorZero(0, 0);
    Pow2Of32();
    XorBitsZeroRight(t, 32);
  }

  /** `a ^ 0 == a` within `k` bits. */
  lemma {:induction false} XorBitsZeroRight(a: nat, k: nat)
    requires a < Pow2(k)
    ensures XorBits(a, 0, k) == a
  {
    if k > 0 {
      XorBitsZeroRight(a / 2, k - 1);
    }
  }

  /** With the unsigned shift, the new word 0 is nonzero when word 0 is zero and word 3 is not. */
  lemma {:induction false} XorwowW0Zero(t: Word)
    requires t != 0
    ensures XorwowW0(0, t) != 0
  {
    var t1 := Xor(t, Shr2(t));
    ScrambleNonzero(t);
    ScrambleNonzero(t1);
    var t2 := Xor(t1, Shl1(t1));
    MixZero(t2);
  }

  /**
   * With the unsigned shift, a step keeps a nonzero xorshift state nonzero, so the
   * generator never falls into the zero state.
   */
  lemma {:induction false} XorwowNonzeroPreserved(w: seq<Word>)
    requires |w| == 6 && XorState(w) != [0, 0, 0, 0]
    ensures XorState(XorwowNext(w)) != [0, 0, 0, 0]
  {
    var n := XorwowNext(w);
    assert XorState(w) == [w[0], w[1], w[2], w[3]];
    assert XorState(n) == [n[0], w[0], w[1], w[2]];
    if w[0] == 0 && w[1] == 0 && w[2] == 0 {
      XorwowW0Zero(w[3]);
    }
  }

  /** With the unsigned shift, a nonzero xorshift state stays nonzero however many steps are taken. */
  lemma {:induction false} XorwowNeverZero(w: seq<Word>, n: nat)
    requires |w| == 6 && XorState(w) != [0, 0, 0, 0]
    ensures XorState(XorwowSteps(w, n)) != [0, 0, 0, 0]
  {
    if n > 0 {
      XorwowNeverZero(w, n - 1);
      var p := XorwowSteps(w, n - 1);
      XorwowNonzeroPreserved(p);
      assert XorwowSteps(w, n) == XorwowNext(p);
    }
  }

  /**
   * The first four words the seed setter derives: word 0 is the seed modulo 2^32 and each
   * next word is `mix` of the one before. `mix` stands for `x * 1812433253 + 1` evaluated in
   * double precision and stored into a 32-bit word.
   */
  function SeedWords(seed: int, mix: Word -> Word): (r: seq<Word>)
    ensures |r| == 4 && r[0] == seed % TWO_32
    ensures r[1] == mix(r[0]) && r[2] == mix(r[1]) && r[3] == mix(r[2])
  {
    var w0 := seed % TWO_32;
    [w0, mix(w0), mix(mix(w0)), mix(mix(mix(w0)))]
  }

  class Random {
    /** The six state words. */
    const words: array<Word>
    /** `_seed`: the seed last assigned. */
    var seedValue: int
    /** The double-precision multiply-and-add the seed setter chains, as a word function. */
    const mix: Word -> Word

    ghost predicate Valid()
      reads this
    {
      words.Length == 6
    }

    /**
     * `new Random(seed)`: the words start at zero and the seed is `seed || now`, where an
     * absent or zero seed is falsy; `now` is the clock reading the constructor would take.
     */
    constructor (seed: Option<int>, now: int, mix: Word -> Word)
      ensures Valid() && fresh(words) && this.mix == mix
      ensures seedValue == (if seed.Some? && seed.value != 0 then seed.value else now)
      ensures words[..4] == SeedWords(seedValue, mix) && words[4] == 0 && words[5] == 0
    {
      words := new Word[6](_ => 0);
      this.mix := mix;
      new;
      SetSeed(if seed.Some? && seed.value != 0 then seed.value else now);
    }

    /** The `seed` getter: word 0, the seed modulo 2^32 until the first step. */
    function Seed(): (s: Word)
      requires Valid()
      reads this, words
      ensures s == words[0]
    {
      words[0]
    }

    /**
     * The `seed` setter: records the seed and rewrites words 0..3 from it; the counter and the
     * last output keep their values.
     */
    method SetSeed(seed: int)
      requires Valid()
      modifies this`seedValue, words
      ensures seedValue == seed
      ensures words[..4] == SeedWords(seed, mix)
      ensures words[4] == old(words[4]) && words[5] == old(words[5])
    {
      seedValue := seed;
      words[0] := seed % TWO_32;
      words[1] := mix(words[0]);
      words[2] := mix(words[1]);
      words[3] := mix(words[2]);
    }

    /** `reset`: assigns the recorded seed again; the counter and the last output stay. */
    method Reset()
      requires Valid()
      modifies this`seedValue, words
      ensures seedValue == old(seedValue)
      ensures words[..4] == SeedWords(seedValue, mix)
      ensures words[4] == old(words[4]) && words[5] == old(words[5])
      ensures Seed() == seedValue % TWO_32
    {
      SetSeed(seedValue);
    }

    /**
     * `randomUint32`: words 0..2 move up one slot, word 0 gets the scrambled value, the
     * counter grows and the result is the stored word 5. The scramble uses the unsigned
     * shift of xorwow (`XorwowNext`); the sign-copying shift of the source is `Next`.
     */
    method RandomUint32() returns (r: Word)
      requires Valid()
      modifies words
      ensures words[..] == XorwowNext(old(words[..]))
      ensures r == words[5]
    {
      var t := words[3];
      var s := words[0];
      words[3] := words[2];
      words[2] := words[1];
      words[1] := s;
      t := Xor(t, Shr2(t));
      t := Xor(t, Shl1(t));
      t := Xor(t, Xor(s, Shl4(s)));
      words[0] := t;
      words[4] := Add(words[4], WEYL);
      words[5] := Add(t, words[4]);
      r := words[5];
    }
  }
}
