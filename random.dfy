/** The seeded random stream and the shuffle both crates use.

    `ChaChaRng::from_seed([seed; 32])` and `SliceRandom::shuffle` are library
    code. The keystream is kept abstract: a `Keystream` maps the number of
    values already drawn to the next raw value, and a `Seeding` maps a u8 seed
    to its keystream. A bounded draw `gen_range(0..n)` is the next raw value
    reduced modulo n. The shuffle is the Fisher-Yates pass of rand 0.8's
    `SliceRandom::shuffle`: for i from len - 1 down to 1, swap position i with
    a drawn position in 0..=i. (rand 0.9 walks upwards and groups its draws;
    no property proved here depends on the direction, since each holds for
    every keystream.) */
module Random {
  import opened Common

  type Keystream = nat -> nat

  type Seeding = Byte -> Keystream

  class Rng {
    const stream: Keystream
    /** How many values have been drawn so far. */
    var used: nat

    constructor (stream: Keystream)
      ensures this.stream == stream && used == 0
    {
      this.stream := stream;
      used := 0;
    }

    /** One draw in 0..bound. */
    method Below(bound: nat) returns (j: nat)
      requires bound > 0
      modifies this
      ensures j < bound && j == stream(old(used)) % bound
      ensures used == old(used) + 1
    {
      j := stream(used) % bound;
      used := used + 1;
    }
  }

  function Swap<T>(s: seq<T>, i: nat, j: nat): (r: seq<T>)
    requires i < |s| && j < |s|
  {
    s[i := s[j]][j := s[i]]
  }

  /** The rest of a Fisher-Yates pass that still has to place positions
      i, i - 1, ..., 1, with `used` values of the stream already consumed. */
  function FisherYates<T>(s: seq<T>, i: nat, stream: Keystream, used: nat): (r: seq<T>)
    requires i < |s|
    decreases i
  {
    if i == 0 then s
    else FisherYates(Swap(s, i, stream(used) % (i + 1)), i - 1, stream, used + 1)
  }

  /** The whole shuffle of `s`, starting at stream position `used`. */
  function Shuffled<T>(s: seq<T>, stream: Keystream, used: nat): seq<T> {
    if s == [] then s else FisherYates(s, |s| - 1, stream, used)
  }

  /** How many stream values a shuffle of n elements consumes. */
  function Draws(n: nat): nat {
    if n == 0 then 0 else n - 1
  }

  /** A swap moves values, it neither adds nor loses any. */
  lemma SwapPermutes<T>(s: seq<T>, i: nat, j: nat)
    requires i < |s| && j < |s|
    ensures multiset(Swap(s, i, j)) == multiset(s)
  {
  }

  /** Every step of the pass is a swap, so the pass is a permutation. */
  lemma {:induction false} FisherYatesPermutes<T>(s: seq<T>, i: nat, stream: Keystream, used: nat)
    requires i < |s|
    ensures |FisherYates(s, i, stream, used)| == |s|
    ensures multiset(FisherYates(s, i, stream, used)) == multiset(s)
    decreases i
  {
    if i > 0 {
      var j := stream(used) % (i + 1);
      var t := Swap(s, i, j);
      SwapPermutes(s, i, j);
      FisherYatesPermutes(t, i - 1, stream, used + 1);
    }
  }

  /** The shuffle is a permutation of its input, whatever the stream. */
  lemma ShuffledPermutes<T>(s: seq<T>, stream: Keystream, used: nat)
    ensures |Shuffled(s, stream, used)| == |s|
    ensures multiset(Shuffled(s, stream, used)) == multiset(s)
  {
    if s != [] {
      FisherYatesPermutes(s, |s| - 1, stream, used);
    }
  }

  /** One step of the pass: the draw for position i, then the swap. */
  lemma FisherYatesStep<T>(s: seq<T>, i: nat, stream: Keystream, used: nat)
    requires 0 < i < |s|
    ensures FisherYates(s, i, stream, used)
         == FisherYates(Swap(s, i, stream(used) % (i + 1)), i - 1, stream, used + 1)
  {
  }

  /** `slice.shuffle(&mut rng)`: shuffles the array in place. */
  method Shuffle<T>(rng: Rng, a: array<T>)
    modifies rng, a
    ensures a[..] == Shuffled(old(a[..]), rng.stream, old(rng.used))
    ensures multiset(a[..]) == multiset(old(a[..]))
    ensures rng.used == old(rng.used) + Draws(a.Length)
  {
    ShuffledPermutes(a[..], rng.stream, rng.used);
    if a.Length == 0 {
      return;
    }
    ghost var s := a[..];
    ghost var used0 := rng.used;
    var i := a.Length - 1;
    while i > 0
      invariant 0 <= i < a.Length
      invariant rng.used == used0 + (a.Length - 1 - i)
      invariant FisherYates(a[..], i, rng.stream, rng.used) == FisherYates(s, |s| - 1, rng.stream, used0)
    {
      FisherYatesStep(a[..], i, rng.stream, rng.used);
      SwapWithDrawn(rng, a, i);
      i := i - 1;
    }
  }

  /** The body of the pass: swap position i with a drawn position in 0..=i. */
  method SwapWithDrawn<T>(rng: Rng, a: array<T>, i: nat)
    requires i < a.Length
    modifies rng, a
    ensures a[..] == Swap(old(a[..]), i, rng.stream(old(rng.used)) % (i + 1))
    ensures rng.used == old(rng.used) + 1
  {
    var j := rng.Below(i + 1);
    a[i], a[j] := a[j], a[i];
  }
}
