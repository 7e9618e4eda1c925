/** The Mulberry32 generator behind every random choice of the engine.
    The generator keeps a 32-bit state; each draw first adds a fixed odd
    increment to it (wrapping at 2^32) and then mixes the new state into a
    32-bit output `u`, whose value as a fraction is `u / 2^32`. */
module Random {

  const TWO32: int := 0x1_0000_0000
  const TWO31: int := 0x8000_0000

  /** The increment added to the state on every draw. */
  const GOLDEN: bv32 := 0x6d2b79f5

  /** The state update of `next()`: `t = (t + 0x6d2b79f5) | 0`. */
  function Advance(t: bv32): bv32 {
    t + GOLDEN
  }

  /** The output of `next()` for the already advanced state `t`, as its unsigned
      numerator: `Math.imul` is 32-bit wrapping multiplication, `>>>` the
      logical shift, and the final `>>> 0` reads the bits as unsigned. */
  function Mix(t: bv32): bv32 {
    var r0 := (t ^ (t >> 15)) * (1 | t);
    var r1 := r0 ^ (r0 + (r0 ^ (r0 >> 7)) * (61 | r0));
    r1 ^ (r1 >> 14)
  }

  /** The value `next()` returns for output `u`. */
  function Fraction(u: bv32): (f: real)
    ensures 0.0 <= f < 1.0
  {
    (u as int) as real / TWO32 as real
  }

  /** `Math.floor(next() * (max - min + 1)) + min`, in exact integer arithmetic. */
  function Scale(u: bv32, min: int, max: int): (r: int)
    ensures min <= max ==> min <= r <= max
  {
    var n := max - min + 1;
    assert min <= max ==> 0 <= (u as int * n) / TWO32 < n by {
      if min <= max { ScaleBounds(u, n); }
    }
    (u as int * n) / TWO32 + min
  }

  /** `Math.floor(next() * n)`: the index `pick` reads. */
  function Index(u: bv32, n: nat): (i: nat)
    requires n > 0
    ensures i < n
  {
    ScaleBounds(u, n);
    (u as int * n) / TWO32
  }

  lemma ScaleBounds(u: bv32, n: int)
    requires n > 0
    ensures 0 <= (u as int * n) / TWO32 < n
  {
    NumeratorRange(u);
    ProductBounds(u as int, n);
  }

  lemma NumeratorRange(u: bv32)
    ensures 0 <= u as int < TWO32
  {
  }

  lemma ProductBounds(a: int, n: int)
    requires 0 <= a < TWO32 && n > 0
    ensures 0 <= (a * n) / TWO32 < n
  {
    var p := a * n;
    MulLeft(n, a, TWO32 - 1);
    MulLeft(n, 0, a);
    assert 0 <= p <= n * (TWO32 - 1);
    var q := p / TWO32;
    assert TWO32 * q <= p;
    if q >= n {
      MulLeft(TWO32, n, q);
      assert false;
    }
  }

  lemma MulLeft(c: int, x: int, y: int)
    requires c >= 0 && x <= y
    ensures c * x <= c * y
  {
  }

  /** The state after `n` draws from state `t`. */
  function AdvanceN(t: bv32, n: nat): bv32 {
    if n == 0 then t else Advance(AdvanceN(t, n - 1))
  }

  /** The outputs of the next `n` draws from state `t`. */
  function Outputs(t: bv32, n: nat): (us: seq<bv32>)
    ensures |us| == n
    decreases n
  {
    if n == 0 then [] else [Mix(Advance(t))] + Outputs(Advance(t), n - 1)
  }

  /** Advancing `j` then `k` times is advancing `j + k` times. */
  lemma {:induction false} AdvanceNAdd(t: bv32, j: nat, k: nat)
    ensures AdvanceN(AdvanceN(t, j), k) == AdvanceN(t, j + k)
  {
    if k > 0 {
      AdvanceNAdd(t, j, k - 1);
    }
  }

  /** The first draw from a state: `AdvanceN(t, 1)` is one step. */
  lemma {:induction false} AdvanceNFirst(t: bv32, n: nat)
    requires n > 0
    ensures AdvanceN(t, n) == AdvanceN(Advance(t), n - 1)
  {
    if n > 1 {
      AdvanceNFirst(t, n - 1);
    }
  }

  /** Resuming: the stream from state `t` is its first `j` outputs followed by
      the stream from the state reached after those `j` draws. */
  lemma {:induction false} OutputsResume(t: bv32, j: nat, k: nat)
    ensures Outputs(t, j + k) == Outputs(t, j) + Outputs(AdvanceN(t, j), k)
    decreases j
  {
    if j > 0 {
      OutputsResume(Advance(t), j - 1, k);
      AdvanceNFirst(t, j);
      assert Outputs(t, j + k) == [Mix(Advance(t))] + Outputs(Advance(t), (j - 1) + k);
    }
  }

  /** The state the source persists: the bits of `t` read as a signed 32-bit integer. */
  function Signed(t: bv32): (s: int)
    ensures -TWO31 <= s < TWO31
  {
    SignedOf(Numerator(t))
  }

  /** The unsigned value of the bits of `u`. */
  function Numerator(u: bv32): (n: int)
    ensures 0 <= n < TWO32
  {
    NumeratorRange(u);
    u as int
  }

  /** An unsigned 32-bit value read as a two's-complement signed one. */
  function SignedOf(a: int): (s: int)
    requires 0 <= a < TWO32
    ensures -TWO31 <= s < TWO31
    ensures s % TWO32 == a
  {
    if a < TWO31 then a else a - TWO32
  }

  /** `seed | 0` for an integral seed: the low 32 bits of `seed`. */
  function ToInt32(seed: int): bv32 {
    (seed % TWO32) as bv32
  }

  lemma BitsRoundTrip(t: bv32)
    ensures (t as int) as bv32 == t
  {
  }

  /** Rebuilding a generator from the persisted signed state gives back the very same state. */
  lemma SignedRoundTrip(t: bv32)
    ensures ToInt32(Signed(t)) == t
  {
    assert Signed(t) % TWO32 == Numerator(t) == t as int;
    BitsRoundTrip(t);
  }

  /** The generator object of `createRng`: the closure's mutable `t` is the field
      `t`; `origin` and `drawn` are ghost bookkeeping of which stream position
      the state is at. */
  class Rng {
    var t: bv32
    ghost var origin: bv32
    ghost var drawn: nat

    /** The state is always reached from the seed by whole draws. */
    ghost predicate Valid()
      reads this
    {
      t == AdvanceN(origin, drawn)
    }

    /** `createRng(seed)`: the state starts at `seed | 0`. */
    constructor (seed: int)
      ensures Valid() && origin == ToInt32(seed) && drawn == 0
      ensures t == ToInt32(seed)
    {
      t := ToInt32(seed);
      origin := ToInt32(seed);
      drawn := 0;
    }

    /** `state()`: the current state as a signed 32-bit integer, from which a new
        generator continues exactly where this one stands. */
    function State(): (s: int)
      reads this
      ensures -TWO31 <= s < TWO31
      ensures ToInt32(s) == t
    {
      SignedRoundTrip(t);
      Signed(t)
    }

    /** `next()`, returning the numerator `u` of the drawn fraction `u / 2^32`. */
    method Next() returns (u: bv32)
      requires Valid()
      modifies this
      ensures Valid() && origin == old(origin) && drawn == old(drawn) + 1
      ensures t == Advance(old(t)) && u == Mix(t)
    {
      t := Advance(t);
      drawn := drawn + 1;
      u := Mix(t);
    }

    /** `int(min, max)`: a uniform integer of `[min, max]` when `min <= max`. */
    method Int(min: int, max: int) returns (r: int)
      requires Valid()
      modifies this
      ensures Valid() && origin == old(origin) && drawn == old(drawn) + 1
      ensures t == Advance(old(t)) && r == Scale(Mix(t), min, max)
      ensures min <= max ==> min <= r <= max
    {
      var u := Next();
      r := (u as int * (max - min + 1)) / TWO32 + min;
    }

    /** `pick(items)`: an element of the non-empty `items`. */
    method Pick<T>(items: seq<T>) returns (x: T)
      requires Valid() && |items| > 0
      modifies this
      ensures Valid() && origin == old(origin) && drawn == old(drawn) + 1
      ensures t == Advance(old(t)) && x == items[Index(Mix(t), |items|)]
      ensures x in items
    {
      var u := Next();
      x := items[Index(u, |items|)];
    }
  }

  /** A generator rebuilt from `State()` of another one produces exactly the rest
      of the other's stream: the commit step persists `state()` and the next
      step resumes from it. */
  lemma ResumeFromState(seed: int, j: nat, k: nat)
    ensures ToInt32(Signed(AdvanceN(ToInt32(seed), j))) == AdvanceN(ToInt32(seed), j)
    ensures Outputs(ToInt32(seed), j + k)[j..]
         == Outputs(ToInt32(Signed(AdvanceN(ToInt32(seed), j))), k)
  {
    var s := AdvanceN(ToInt32(seed), j);
    SignedRoundTrip(s);
    OutputsResume(ToInt32(seed), j, k);
  }
}
