/** Shared building blocks: the failure-compatible wrappers the Rust code uses
    (Option, Result), its u8 type, and facts about sequences viewed as sets. */
module Common {

  datatype Option<+T> = None | Some(value: T)

  datatype Result<+T, +E> = Ok(value: T) | Err(error: E)

  /** Rust's u8. */
  newtype Byte = x: int | 0 <= x < 256

  /** No value occurs twice. */
  predicate NoDuplicates<T(==)>(s: seq<T>) {
    forall i, j :: 0 <= i < j < |s| ==> s[i] != s[j]
  }

  /** The set of values of a sequence. */
  function Elems<T(==)>(s: seq<T>): set<T> {
    set x | x in s
  }

  /** Sum of a sequence of naturals, first element first. */
  function Sum(s: seq<nat>): nat {
    if s == [] then 0 else s[0] + Sum(s[1..])
  }

  /** The integers lo, lo + 1, ..., hi - 1, as Rust's `(lo..hi).collect()`. */
  function Range(lo: nat, hi: nat): (r: seq<nat>)
    ensures |r| == if lo <= hi then hi - lo else 0
    ensures forall i :: 0 <= i < |r| ==> r[i] == lo + i
  {
    if lo < hi then seq(hi - lo, i requires 0 <= i < hi - lo => lo + i) else []
  }

  /** Item m of `buf.into_iter().cycle()`: the cycle starts over at the
      front each time it runs out. */
  function CycleItem<T(==)>(buf: seq<T>, m: nat): (r: T)
    requires buf != []
    ensures r in buf
  {
    buf[m % |buf|]
  }

  /** The cycle starts over after |buf| items. */
  lemma CyclePeriod<T>(buf: seq<T>, m: nat)
    requires buf != []
    ensures CycleItem(buf, m + |buf|) == CycleItem(buf, m)
  {
    ModAddDivisor(m, |buf|);
  }

  /** Adding the divisor does not change the remainder. */
  lemma ModAddDivisor(m: nat, n: nat)
    requires n > 0
    ensures (m + n) % n == m % n
  {
    var q, r := m / n, m % n;
    var q', r' := (m + n) / n, (m + n) % n;
    var k := q' - q - 1;
    assert k * n == r - r' by {
      assert m == q * n + r;
      assert m + n == q' * n + r';
      assert k * n == q' * n - q * n - n;
    }
    if k < 0 {
      MulMonotone(-k, n);
    }
  }

  lemma MulMonotone(k: int, n: nat)
    requires k >= 1
    ensures k * n >= n
  {
  }

  lemma {:induction false} SumSnoc(s: seq<nat>, x: nat)
    ensures Sum(s + [x]) == Sum(s) + x
  {
    if s == [] {
      assert s + [x] == [x];
    } else {
      assert (s + [x])[1..] == s[1..] + [x];
      SumSnoc(s[1..], x);
    }
  }

  lemma SumStep(s: seq<nat>, i: nat)
    requires i < |s|
    ensures Sum(s[..i + 1]) == Sum(s[..i]) + s[i]
  {
    assert s[..i + 1] == s[..i] + [s[i]];
    SumSnoc(s[..i], s[i]);
  }

  /** A prefix never sums to more than the whole sequence. */
  lemma {:induction false} SumPrefixBound(s: seq<nat>, i: nat)
    requires i <= |s|
    ensures Sum(s[..i]) <= Sum(s)
    decreases |s| - i
  {
    if i < |s| {
      SumStep(s, i);
      SumPrefixBound(s, i + 1);
    } else {
      assert s[..i] == s;
    }
  }

  /** A sequence has at most as many distinct values as positions, and
      exactly as many iff no value repeats. */
  lemma {:induction false} ElemsCardinality<T>(s: seq<T>)
    ensures |Elems(s)| <= |s|
    ensures |Elems(s)| == |s| <==> NoDuplicates(s)
  {
    if s == [] {
      assert Elems(s) == {};
    } else {
      var rest := s[1..];
      ElemsCardinality(rest);
      assert Elems(s) == {s[0]} + Elems(rest);
      if s[0] in rest {
        assert Elems(s) == Elems(rest);
        var j :| 0 <= j < |rest| && rest[j] == s[0];
        assert s[0] == s[j + 1];
        assert !NoDuplicates(s);
      } else {
        assert |Elems(s)| == |Elems(rest)| + 1;
        if NoDuplicates(rest) {
          forall i, j | 0 <= i < j < |s| ensures s[i] != s[j] {
            if i == 0 {
              assert s[j] == rest[j - 1];
            } else {
              assert s[i] == rest[i - 1] && s[j] == rest[j - 1];
            }
          }
        } else {
          var i, j :| 0 <= i < j < |rest| && rest[i] == rest[j];
          assert s[i + 1] == s[j + 1];
        }
      }
    }
  }

  /** A subset is no larger, and equally large only when it is the whole set. */
  lemma {:induction false} SubsetCardinality<T>(a: set<T>, b: set<T>)
    requires a <= b
    ensures |a| <= |b|
    ensures |a| == |b| ==> a == b
    decreases b
  {
    if b != {} {
      var x :| x in b;
      SubsetCardinality(a - {x}, b - {x});
      if x in a {
        assert a == (a - {x}) + {x};
      } else {
        assert a - {x} == a;
      }
    }
  }

  /** Two sequences with the same multiset of values where one has no
      duplicates: neither has, and they have the same values. */
  lemma {:induction false} PermutationKeepsDistinct<T>(s: seq<T>, t: seq<T>)
    requires multiset(s) == multiset(t)
    requires NoDuplicates(t)
    ensures NoDuplicates(s)
    ensures Elems(s) == Elems(t)
  {
    forall x ensures x in s <==> x in t {
      assert x in s <==> x in multiset(s);
      assert x in t <==> x in multiset(t);
    }
    forall i, j | 0 <= i < j < |s| ensures s[i] != s[j] {
      if s[i] == s[j] {
        var x := s[i];
        assert s == s[..i] + [x] + s[i + 1..j] + [x] + s[j + 1..];
        assert multiset(s)[x] >= 2;
        CountAtMostOne(t, x);
      }
    }
  }

  lemma {:induction false} CountAtMostOne<T>(t: seq<T>, x: T)
    requires NoDuplicates(t)
    ensures multiset(t)[x] <= 1
  {
    if t != [] {
      assert t == [t[0]] + t[1..];
      assert NoDuplicates(t[1..]) by {
        forall i, j | 0 <= i < j < |t[1..]| ensures t[1..][i] != t[1..][j] {
          assert t[1..][i] == t[i + 1] && t[1..][j] == t[j + 1];
        }
      }
      CountAtMostOne(t[1..], x);
      if t[0] == x {
        assert x !in t[1..] by {
          forall j | 0 <= j < |t[1..]| ensures t[1..][j] != x {
            assert t[1..][j] == t[j + 1];
          }
        }
      }
    }
  }
}
