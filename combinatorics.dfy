/** The fixed combinatorial data of a tombola ticket: the nine column ranges,
    the combinations of one, two or three numbers of a column (the "buckets"),
    and the size configurations (how many numbers each column contributes). */
module Combinatorics {
  import opened Common

  /** A combination: the numbers one column contributes, in enumeration order. */
  type Combination = seq<nat>

  /** A size configuration: per column 0, 1 or 2, meaning 1, 2 or 3 numbers. */
  type Configuration = seq<nat>

  const Columns: nat := 9

  /** The half-open column ranges 1..10, 10..20, ..., 70..80, 80..91. */
  const ColumnStarts: seq<nat> := [1, 10, 20, 30, 40, 50, 60, 70, 80]
  const ColumnEnds: seq<nat> := [10, 20, 30, 40, 50, 60, 70, 80, 91]

  function Start(c: nat): nat
    requires c < Columns
  {
    ColumnStarts[c]
  }

  function End(c: nat): nat
    requires c < Columns
  {
    ColumnEnds[c]
  }

  /** The ranges are non-empty, ascending and touch one another, covering 1..91. */
  lemma ColumnRangesPartition()
    ensures Start(0) == 1 && End(Columns - 1) == 91
    ensures forall c :: 0 <= c < Columns ==> Start(c) < End(c)
    ensures forall c :: 0 < c < Columns ==> End(c - 1) == Start(c)
  {
  }

  predicate Ascending(s: seq<nat>) {
    forall i, j :: 0 <= i < j < |s| ==> s[i] < s[j]
  }

  predicate InRange(s: seq<nat>, lo: nat, hi: nat) {
    forall i :: 0 <= i < |s| ==> lo <= s[i] < hi
  }

  /** Every element of `ss`, with `x` put in front. */
  function Prefixed<T>(x: T, ss: seq<seq<T>>): (r: seq<seq<T>>)
    ensures |r| == |ss|
  {
    seq(|ss|, i requires 0 <= i < |ss| => [x] + ss[i])
  }

  /** The k-element subsequences of `xs`, in lexicographic order of
      positions: those holding xs[0] come first. */
  function Choose(xs: seq<nat>, k: nat): seq<Combination> {
    if k == 0 then [[]]
    else if xs == [] then []
    else Prefixed(xs[0], Choose(xs[1..], k - 1)) + Choose(xs[1..], k)
  }

  /** `(lo..hi).combinations(k)`: the k-element subsets of lo..hi, each listed
      ascending, in lexicographic order (those holding lo come first). */
  function Combinations(lo: nat, hi: nat, k: nat): seq<Combination> {
    Choose(Range(lo, hi), k)
  }

  /** The recurrence of `combinations`: a combination holds lo or avoids it. */
  lemma CombinationsUnfold(lo: nat, hi: nat, k: nat)
    ensures Combinations(lo, hi, k)
         == if k == 0 then [[]]
            else if lo >= hi then []
            else Prefixed(lo, Combinations(lo + 1, hi, k - 1)) + Combinations(lo + 1, hi, k)
  {
    if k > 0 && lo < hi {
      assert Range(lo, hi)[1..] == Range(lo + 1, hi);
    }
  }

  function Binomial(n: nat, k: nat): nat {
    if k == 0 then 1
    else if n == 0 then 0
    else Binomial(n - 1, k - 1) + Binomial(n - 1, k)
  }

  lemma {:induction false} InPrefixed<T>(x: T, ss: seq<seq<T>>, s: seq<T>)
    ensures s in Prefixed(x, ss) <==> |s| > 0 && s[0] == x && s[1..] in ss
  {
    var p := Prefixed(x, ss);
    if s in p {
      var i :| 0 <= i < |p| && p[i] == s;
      assert s[1..] == ss[i];
    }
    if |s| > 0 && s[0] == x && s[1..] in ss {
      var i :| 0 <= i < |ss| && ss[i] == s[1..];
      assert p[i] == s;
    }
  }

  /** A bucket holds exactly the ascending k-sequences drawn from lo..hi. */
  lemma {:induction false} CombinationsMembers(lo: nat, hi: nat, k: nat, s: seq<nat>)
    ensures s in Combinations(lo, hi, k) <==> |s| == k && Ascending(s) && InRange(s, lo, hi)
    decreases hi - lo, 1
  {
    CombinationsUnfold(lo, hi, k);
    if k == 0 {
    } else if lo >= hi {
      if |s| == k {
        assert !(lo <= s[0] < hi);
      }
    } else {
      CombinationsSplit(lo, hi, k, s);
    }
  }

  /** The induction step: a combination either starts with lo or avoids it. */
  lemma {:induction false} CombinationsSplit(lo: nat, hi: nat, k: nat, s: seq<nat>)
    requires 0 < k && lo < hi
    ensures s in Combinations(lo, hi, k) <==> |s| == k && Ascending(s) && InRange(s, lo, hi)
    decreases hi - lo, 0
  {
    CombinationsMembers(lo + 1, hi, k, s);
    if |s| > 0 {
      CombinationsMembers(lo + 1, hi, k - 1, s[1..]);
    }
    var withLo := Prefixed(lo, Combinations(lo + 1, hi, k - 1));
    var withoutLo := Combinations(lo + 1, hi, k);
    CombinationsUnfold(lo, hi, k);
    assert s in Combinations(lo, hi, k) <==> s in withLo || s in withoutLo;
    InPrefixed(lo, Combinations(lo + 1, hi, k - 1), s);
    if |s| > 0 {
      if Ascending(s) && InRange(s, lo, hi) {
        Behead(s, lo, hi);
      }
      if s[0] == lo && Ascending(s[1..]) && InRange(s[1..], lo + 1, hi) {
        Prepend(s, lo, hi);
      }
      if InRange(s, lo + 1, hi) {
        assert lo <= s[0];
      }
    }
  }

  /** Below the head of an ascending sequence in lo..hi everything exceeds lo. */
  lemma Behead(s: seq<nat>, lo: nat, hi: nat)
    requires |s| > 0 && Ascending(s) && InRange(s, lo, hi)
    ensures Ascending(s[1..]) && InRange(s[1..], lo + 1, hi)
    ensures s[0] != lo ==> InRange(s, lo + 1, hi)
  {
    forall i | 0 <= i < |s[1..]| ensures lo + 1 <= s[1..][i] < hi {
      assert s[1..][i] == s[i + 1] && s[0] < s[i + 1];
    }
  }

  /** Putting lo in front of an ascending sequence in lo + 1..hi. */
  lemma Prepend(s: seq<nat>, lo: nat, hi: nat)
    requires |s| > 0 && s[0] == lo && Ascending(s[1..]) && InRange(s[1..], lo + 1, hi)
    requires lo < hi
    ensures Ascending(s) && InRange(s, lo, hi)
  {
    forall i, j | 0 <= i < j < |s| ensures s[i] < s[j] {
      assert s[j] == s[1..][j - 1];
      if i > 0 {
        assert s[i] == s[1..][i - 1];
      }
    }
    forall i | 0 <= i < |s| ensures lo <= s[i] < hi {
      if i > 0 {
        assert s[i] == s[1..][i - 1];
      }
    }
  }

  lemma {:induction false} NoDuplicatesAppend<T>(a: seq<T>, b: seq<T>)
    requires NoDuplicates(a) && NoDuplicates(b)
    requires forall x :: x in a ==> x !in b
    ensures NoDuplicates(a + b)
  {
    var ab := a + b;
    forall i, j | 0 <= i < j < |ab| ensures ab[i] != ab[j] {
      if j >= |a| && i < |a| {
        assert ab[i] in a && ab[j] == b[j - |a|];
      } else if i >= |a| {
        assert ab[i] == b[i - |a|] && ab[j] == b[j - |a|];
      }
    }
  }

  lemma {:induction false} PrefixedNoDuplicates<T>(x: T, ss: seq<seq<T>>)
    requires NoDuplicates(ss)
    ensures NoDuplicates(Prefixed(x, ss))
  {
    var p := Prefixed(x, ss);
    forall i, j | 0 <= i < j < |p| ensures p[i] != p[j] {
      assert p[i][1..] == ss[i] && p[j][1..] == ss[j];
    }
  }

  /** No combination is listed twice in a bucket. */
  lemma {:induction false} CombinationsDistinct(lo: nat, hi: nat, k: nat)
    ensures NoDuplicates(Combinations(lo, hi, k))
    decreases hi - lo
  {
    CombinationsUnfold(lo, hi, k);
    if k > 0 && lo < hi {
      var withLo := Combinations(lo + 1, hi, k - 1);
      var withoutLo := Combinations(lo + 1, hi, k);
      CombinationsDistinct(lo + 1, hi, k - 1);
      CombinationsDistinct(lo + 1, hi, k);
      PrefixedNoDuplicates(lo, withLo);
      forall s | s in Prefixed(lo, withLo) ensures s !in withoutLo {
        InPrefixed(lo, withLo, s);
        CombinationsMembers(lo + 1, hi, k, s);
      }
      NoDuplicatesAppend(Prefixed(lo, withLo), withoutLo);
    }
  }

  /** A bucket over a range of n numbers holds n-choose-k combinations. */
  lemma {:induction false} CombinationsCount(lo: nat, hi: nat, k: nat)
    requires lo <= hi
    ensures |Combinations(lo, hi, k)| == Binomial(hi - lo, k)
    decreases hi - lo
  {
    CombinationsUnfold(lo, hi, k);
    if k > 0 && lo < hi {
      CombinationsCount(lo + 1, hi, k - 1);
      CombinationsCount(lo + 1, hi, k);
    }
  }

  /** The canonical (unshuffled) bucket of column c and size class k (k + 1 numbers). */
  function Bucket(c: nat, k: nat): seq<Combination>
    requires c < Columns
  {
    Combinations(Start(c), End(c), k + 1)
  }

  /** Bucket sizes: 9/36/84 for column 0, 10/45/120 for columns 1-7, 11/55/165 for column 8. */
  lemma BucketSizes(c: nat, k: nat)
    requires c < Columns && k < 3
    ensures |Bucket(c, k)| == Binomial(End(c) - Start(c), k + 1)
    ensures c == 0 ==> |Bucket(c, k)| == [9, 36, 84][k]
    ensures 0 < c < 8 ==> |Bucket(c, k)| == [10, 45, 120][k]
    ensures c == 8 ==> |Bucket(c, k)| == [11, 55, 165][k]
  {
    CombinationsCount(Start(c), End(c), k + 1);
    ColumnBinomials(c, k);
  }

  lemma ColumnBinomials(c: nat, k: nat)
    requires c < Columns && k < 3
    ensures c == 0 ==> Binomial(End(c) - Start(c), k + 1) == [9, 36, 84][k]
    ensures 0 < c < 8 ==> Binomial(End(c) - Start(c), k + 1) == [10, 45, 120][k]
    ensures c == 8 ==> Binomial(End(c) - Start(c), k + 1) == [11, 55, 165][k]
  {
    var n := 0;
    SmallBinomials(n);
    var width := End(c) - Start(c);
    assert width == if c == 0 then n + 9 else if c < 8 then n + 10 else n + 11;
    if k == 0 {
      assert Binomial(width, k + 1) == Binomial(width, 1);
    } else if k == 1 {
      assert Binomial(width, k + 1) == Binomial(width, 2);
    } else {
      assert Binomial(width, k + 1) == Binomial(width, 3);
    }
  }

  /** The binomials the buckets need, row by row of Pascal's triangle. The
      row number is a parameter so that the verifier does not expand
      Binomial on literal arguments. */
  lemma SmallBinomials(n: nat)
    requires n == 0
    ensures Binomial(n + 9, 1) == 9 && Binomial(n + 9, 2) == 36 && Binomial(n + 9, 3) == 84
    ensures Binomial(n + 10, 1) == 10 && Binomial(n + 10, 2) == 45 && Binomial(n + 10, 3) == 120
    ensures Binomial(n + 11, 1) == 11 && Binomial(n + 11, 2) == 55 && Binomial(n + 11, 3) == 165
  {
    PascalRow(n + 0, 0, 0, 0);
    PascalRow(n + 1, 1, 0, 0);
    PascalRow(n + 2, 2, 1, 0);
    PascalRow(n + 3, 3, 3, 1);
    PascalRow(n + 4, 4, 6, 4);
    PascalRow(n + 5, 5, 10, 10);
    PascalRow(n + 6, 6, 15, 20);
    PascalRow(n + 7, 7, 21, 35);
    PascalRow(n + 8, 8, 28, 56);
    PascalRow(n + 9, 9, 36, 84);
    PascalRow(n + 10, 10, 45, 120);
  }

  /** Row n + 1 of Pascal's triangle from row n, columns 1 to 3. */
  lemma PascalRow(n: nat, b1: nat, b2: nat, b3: nat)
    requires Binomial(n, 1) == b1 && Binomial(n, 2) == b2 && Binomial(n, 3) == b3
    ensures Binomial(n + 1, 1) == b1 + 1 && Binomial(n + 1, 2) == b2 + b1 && Binomial(n + 1, 3) == b3 + b2
  {
  }

  // ----- size configurations -----

  /** `iproduct!(0..3, ..., 0..3)` with n factors: every n-tuple over {0, 1, 2},
      the first component varying slowest. */
  function Tuples(n: nat): seq<Configuration> {
    if n == 0 then [[]]
    else
      var rest := Tuples(n - 1);
      Prefixed(0, rest) + Prefixed(1, rest) + Prefixed(2, rest)
  }

  /** The tuples of `ts` whose components sum to `s`, in order. */
  function WithSum(ts: seq<Configuration>, s: int): seq<Configuration> {
    if ts == [] then []
    else (if Sum(ts[0]) == s then [ts[0]] else []) + WithSum(ts[1..], s)
  }

  /** The configurations the generator keeps: component sum 6, so 15 numbers. */
  function AllConfigurations(): seq<Configuration> {
    WithSum(Tuples(Columns), 6)
  }

  predicate IsConfiguration(config: Configuration) {
    |config| == Columns && (forall c :: 0 <= c < |config| ==> config[c] < 3) && Sum(config) == 6
  }

  lemma {:induction false} TuplesMembers(n: nat, t: seq<nat>)
    ensures t in Tuples(n) <==> |t| == n && forall i :: 0 <= i < |t| ==> t[i] < 3
  {
    if n > 0 {
      var rest := Tuples(n - 1);
      InPrefixed(0, rest, t);
      InPrefixed(1, rest, t);
      InPrefixed(2, rest, t);
      if |t| > 0 {
        TuplesMembers(n - 1, t[1..]);
        if |t| == n && forall i :: 0 <= i < |t| ==> t[i] < 3 {
          assert forall i :: 0 <= i < |t[1..]| ==> t[1..][i] == t[i + 1];
        }
        if t[1..] in rest && t[0] < 3 {
          assert forall i :: 0 < i < |t| ==> t[i] == t[1..][i - 1];
        }
      }
    }
  }

  lemma {:induction false} TuplesDistinct(n: nat)
    ensures NoDuplicates(Tuples(n))
  {
    if n > 0 {
      var rest := Tuples(n - 1);
      TuplesDistinct(n - 1);
      PrefixedNoDuplicates(0, rest);
      PrefixedNoDuplicates(1, rest);
      PrefixedNoDuplicates(2, rest);
      forall t | t in Prefixed(0, rest) ensures t !in Prefixed(1, rest) {
        InPrefixed(0, rest, t);
        InPrefixed(1, rest, t);
      }
      NoDuplicatesAppend(Prefixed(0, rest), Prefixed(1, rest));
      forall t | t in Prefixed(0, rest) + Prefixed(1, rest) ensures t !in Prefixed(2, rest) {
        InPrefixed(0, rest, t);
        InPrefixed(1, rest, t);
        InPrefixed(2, rest, t);
      }
      NoDuplicatesAppend(Prefixed(0, rest) + Prefixed(1, rest), Prefixed(2, rest));
    }
  }

  lemma {:induction false} WithSumMembers(ts: seq<Configuration>, s: int, t: Configuration)
    ensures t in WithSum(ts, s) <==> t in ts && Sum(t) == s
  {
    if ts != [] {
      WithSumMembers(ts[1..], s, t);
      assert ts == [ts[0]] + ts[1..];
    }
  }

  lemma {:induction false} WithSumDistinct(ts: seq<Configuration>, s: int)
    requires NoDuplicates(ts)
    ensures NoDuplicates(WithSum(ts, s))
  {
    if ts != [] {
      assert NoDuplicates(ts[1..]) by {
        forall i, j | 0 <= i < j < |ts[1..]| ensures ts[1..][i] != ts[1..][j] {
          assert ts[1..][i] == ts[i + 1] && ts[1..][j] == ts[j + 1];
        }
      }
      WithSumDistinct(ts[1..], s);
      forall t | t in WithSum(ts[1..], s) ensures t != ts[0] {
        WithSumMembers(ts[1..], s, t);
        var j :| 0 <= j < |ts[1..]| && ts[1..][j] == t;
        assert ts[j + 1] == t;
      }
      var head: seq<Configuration> := if Sum(ts[0]) == s then [ts[0]] else [];
      NoDuplicatesAppend(head, WithSum(ts[1..], s));
    }
  }

  /** The kept list is exactly the valid configurations, each once. */
  lemma AllConfigurationsMembers(config: Configuration)
    ensures config in AllConfigurations() <==> IsConfiguration(config)
    ensures NoDuplicates(AllConfigurations())
  {
    WithSumMembers(Tuples(Columns), 6, config);
    TuplesMembers(Columns, config);
    TuplesDistinct(Columns);
    WithSumDistinct(Tuples(Columns), 6);
  }

  /** The number of n-tuples over {0, 1, 2} summing to s. */
  function TupleCount(n: nat, s: int): nat {
    if s < 0 then 0
    else if n == 0 then (if s == 0 then 1 else 0)
    else TupleCount(n - 1, s) + TupleCount(n - 1, s - 1) + TupleCount(n - 1, s - 2)
  }

  lemma {:induction false} WithSumAppend(a: seq<Configuration>, b: seq<Configuration>, s: int)
    ensures WithSum(a + b, s) == WithSum(a, s) + WithSum(b, s)
  {
    if a != [] {
      assert (a + b)[1..] == a[1..] + b;
      WithSumAppend(a[1..], b, s);
    } else {
      assert a + b == b;
    }
  }

  /** Filtering one more tuple appends it exactly when it has the sum. */
  lemma WithSumSnoc(ts: seq<Configuration>, t: Configuration, s: int)
    ensures WithSum(ts + [t], s) == WithSum(ts, s) + (if Sum(t) == s then [t] else [])
  {
    WithSumAppend(ts, [t], s);
    assert WithSum([t], s) == (if Sum(t) == s then [t] else []) + WithSum([], s);
  }

  lemma {:induction false} WithSumPrefixed(d: nat, ts: seq<Configuration>, s: int)
    ensures |WithSum(Prefixed(d, ts), s)| == |WithSum(ts, s - d)|
  {
    if ts != [] {
      var p := Prefixed(d, ts);
      assert p[1..] == Prefixed(d, ts[1..]);
      assert p[0][1..] == ts[0];
      assert Sum(p[0]) == d + Sum(ts[0]);
      WithSumPrefixed(d, ts[1..], s);
    }
  }

  lemma {:induction false} WithSumNegative(ts: seq<Configuration>, s: int)
    requires s < 0
    ensures WithSum(ts, s) == []
  {
    if ts != [] {
      WithSumNegative(ts[1..], s);
    }
  }

  lemma {:induction false} TuplesWithSumCount(n: nat, s: int)
    ensures |WithSum(Tuples(n), s)| == TupleCount(n, s)
  {
    if s < 0 {
      WithSumNegative(Tuples(n), s);
      assert TupleCount(n, s) == 0;
      assert |WithSum(Tuples(n), s)| == TupleCount(n, s);
    } else if n == 0 {
      assert Tuples(n) == [[]];
      assert WithSum([[]], s) == (if s == 0 then [[]] else []) + WithSum([], s);
      assert TupleCount(n, s) == if s == 0 then 1 else 0;
      assert |WithSum(Tuples(n), s)| == TupleCount(n, s);
    } else {
      var rest := Tuples(n - 1);
      assert |WithSum(rest, s)| == TupleCount(n - 1, s) by {
        TuplesWithSumCount(n - 1, s);
      }
      assert |WithSum(rest, s - 1)| == TupleCount(n - 1, s - 1) by {
        TuplesWithSumCount(n - 1, s - 1);
      }
      assert |WithSum(rest, s - 2)| == TupleCount(n - 1, s - 2) by {
        TuplesWithSumCount(n - 1, s - 2);
      }
      WithSumTuplesStep(n, s);
      assert TupleCount(n, s) == TupleCount(n - 1, s) + TupleCount(n - 1, s - 1) + TupleCount(n - 1, s - 2);
    }
  }

  /** Splitting the n-tuples by their first component. */
  lemma WithSumTuplesStep(n: nat, s: int)
    requires n > 0
    ensures |WithSum(Tuples(n), s)|
         == |WithSum(Tuples(n - 1), s)| + |WithSum(Tuples(n - 1), s - 1)| + |WithSum(Tuples(n - 1), s - 2)|
  {
    var rest := Tuples(n - 1);
    var p0, p1, p2 := Prefixed(0, rest), Prefixed(1, rest), Prefixed(2, rest);
    assert Tuples(n) == p0 + p1 + p2;
    WithSumAppend(p0 + p1, p2, s);
    WithSumAppend(p0, p1, s);
    WithSumPrefixed(0, rest, s);
    WithSumPrefixed(1, rest, s);
    WithSumPrefixed(2, rest, s);
  }
}

/** The number of size configurations, from the recurrence on TupleCount.
    Every step takes the row number as a parameter, so that the verifier never
    expands TupleCount on literal arguments, which it does eagerly. */
module ConfigurationCount {
  import opened Combinatorics

  /** There are 1554 configurations, whatever the seed. */
  lemma ConfigurationCount()
    ensures |AllConfigurations()| == 1554
  {
    ConfigurationCountAt(Columns);
  }

  lemma ConfigurationCountAt(n: nat)
    requires n == Columns
    ensures |WithSum(Tuples(n), 6)| == 1554
  {
    var m := 0;
    ConfigurationCountFrom(m);
    assert m + Columns == n;
  }

  lemma ConfigurationCountFrom(n: nat)
    requires n == 0
    ensures |WithSum(Tuples(n + Columns), 6)| == 1554
  {
    TuplesWithSumCount(n + Columns, 6);
    TupleCountNineSix(n);
  }

  lemma TupleCountNineSix(n: nat)
    requires n == 0
    ensures TupleCount(n + 9, 6) == 1554
  {
    FirstRow(n);
    NextRow(n + 0, 1, 0, 0, 0, 0, 0, 0);
    NextRow(n + 1, 1, 1, 1, 0, 0, 0, 0);
    NextRow(n + 2, 1, 2, 3, 2, 1, 0, 0);
    NextRow(n + 3, 1, 3, 6, 7, 6, 3, 1);
    NextRow(n + 4, 1, 4, 10, 16, 19, 16, 10);
    NextRow(n + 5, 1, 5, 15, 30, 45, 51, 45);
    NextRow(n + 6, 1, 6, 21, 50, 90, 126, 141);
    NextRow(n + 7, 1, 7, 28, 77, 161, 266, 357);
    NextRow(n + 8, 1, 8, 36, 112, 266, 504, 784);
  }

  lemma FirstRow(n: nat)
    requires n == 0
    ensures TupleCount(n, 0) == 1 && TupleCount(n, 1) == 0 && TupleCount(n, 2) == 0
    ensures TupleCount(n, 3) == 0 && TupleCount(n, 4) == 0 && TupleCount(n, 5) == 0 && TupleCount(n, 6) == 0
  {
  }

  /** One row of the table from the previous one: a sum of three neighbours. */
  lemma NextRow(n: nat, a0: nat, a1: nat, a2: nat, a3: nat, a4: nat, a5: nat, a6: nat)
    requires TupleCount(n, 0) == a0 && TupleCount(n, 1) == a1 && TupleCount(n, 2) == a2
    requires TupleCount(n, 3) == a3 && TupleCount(n, 4) == a4 && TupleCount(n, 5) == a5 && TupleCount(n, 6) == a6
    ensures TupleCount(n + 1, 0) == a0 && TupleCount(n + 1, 1) == a1 + a0
    ensures TupleCount(n + 1, 2) == a2 + a1 + a0 && TupleCount(n + 1, 3) == a3 + a2 + a1
    ensures TupleCount(n + 1, 4) == a4 + a3 + a2 && TupleCount(n + 1, 5) == a5 + a4 + a3
    ensures TupleCount(n + 1, 6) == a6 + a5 + a4
  {
  }
}
