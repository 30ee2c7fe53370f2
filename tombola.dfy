/** The ticket-assembly core both generators share: the 27 shuffled buckets,
    the cycling cursor of each bucket, how one ticket is put together from a
    size configuration, and the "max set of tickets" estimate. */
module Tombola {
  import opened Common
  import opened Combinatorics
  import opened Random
  import ConfigurationCount

  const TicketSize: nat := 15

  /** Per column, one bucket of 1-, one of 2- and one of 3-number combinations. */
  const SizeClasses: nat := 3

  /** `columns[c][k]`: the combinations of k + 1 numbers of column c. */
  type Buckets = seq<seq<seq<Combination>>>

  /** One cursor per bucket: how many combinations its cycle has yielded. The
      cycle over a bucket yields `CycleItem(bucket, m)` as its m-th item. */
  type Cursors = seq<seq<nat>>

  type Ticket = seq<nat>

  /** A 9 x 3 grid. */
  predicate Shaped<T>(grid: seq<seq<T>>) {
    |grid| == Columns && forall c :: 0 <= c < Columns ==> |grid[c]| == SizeClasses
  }

  /** Every bucket has something to cycle over. */
  predicate Stocked(columns: Buckets) {
    Shaped(columns) && forall c, k :: 0 <= c < Columns && 0 <= k < SizeClasses ==> columns[c][k] != []
  }

  /** Every bucket is non-empty and holds ascending combinations of the right
      size taken from its column's range. */
  predicate WellFormed(columns: Buckets) {
    Stocked(columns) &&
    forall c, k, combo :: 0 <= c < Columns && 0 <= k < SizeClasses && combo in columns[c][k] ==>
      |combo| == k + 1 && Ascending(combo) && InRange(combo, Start(c), End(c))
  }

  /** Every bucket of column c is a reordering of its canonical combinations. */
  predicate ColumnOk(column: seq<seq<Combination>>, c: nat)
    requires c < Columns
  {
    |column| == SizeClasses &&
    forall k :: 0 <= k < SizeClasses ==> multiset(column[k]) == multiset(Bucket(c, k))
  }

  /** Every bucket is a reordering of the canonical combinations. */
  predicate BucketsOk(columns: Buckets) {
    |columns| == Columns && forall c :: 0 <= c < Columns ==> ColumnOk(columns[c], c)
  }

  /** The configuration list is a reordering of all configurations. */
  predicate ConfigsOk(configs: seq<Configuration>) {
    multiset(configs) == multiset(AllConfigurations())
  }

  predicate ConfigsWellFormed(configs: seq<Configuration>) {
    configs != [] && forall i :: 0 <= i < |configs| ==> IsConfiguration(configs[i])
  }

  /** A ticket: 15 numbers in 1..90, strictly ascending (hence distinct). */
  predicate IsTicket(t: Ticket) {
    |t| == TicketSize && Ascending(t) && InRange(t, 1, 91)
  }

  // ----- buckets -----

  /** Shuffled buckets hold the same combinations as the canonical ones, so
      each is non-empty, repeats nothing, and holds ascending combinations of
      k + 1 numbers of column c. */
  lemma BucketsOkWellFormed(columns: Buckets)
    requires BucketsOk(columns)
    ensures WellFormed(columns)
    ensures forall c, k :: 0 <= c < Columns && 0 <= k < SizeClasses ==>
      |columns[c][k]| == |Bucket(c, k)| && NoDuplicates(columns[c][k])
  {
    forall c, k | 0 <= c < Columns && 0 <= k < SizeClasses
      ensures columns[c][k] != [] && |columns[c][k]| == |Bucket(c, k)| && NoDuplicates(columns[c][k])
      ensures forall combo :: combo in columns[c][k] ==>
        |combo| == k + 1 && Ascending(combo) && InRange(combo, Start(c), End(c))
    {
      BucketFacts(columns[c][k], c, k);
    }
  }

  lemma BucketFacts(b: seq<Combination>, c: nat, k: nat)
    requires c < Columns && k < SizeClasses
    requires multiset(b) == multiset(Bucket(c, k))
    ensures b != [] && |b| == |Bucket(c, k)| && NoDuplicates(b)
    ensures forall combo :: combo in b ==>
      |combo| == k + 1 && Ascending(combo) && InRange(combo, Start(c), End(c))
  {
    BucketLength(b, c, k);
    BucketDistinct(b, c, k);
    BucketMembers(b, c, k);
  }

  lemma BucketLength(b: seq<Combination>, c: nat, k: nat)
    requires c < Columns && k < SizeClasses
    requires multiset(b) == multiset(Bucket(c, k))
    ensures |b| == |Bucket(c, k)| > 0
  {
    BucketSizes(c, k);
    assert |b| == |multiset(b)| == |multiset(Bucket(c, k))| == |Bucket(c, k)|;
  }

  lemma BucketDistinct(b: seq<Combination>, c: nat, k: nat)
    requires c < Columns && k < SizeClasses
    requires multiset(b) == multiset(Bucket(c, k))
    ensures NoDuplicates(b)
  {
    CombinationsDistinct(Start(c), End(c), k + 1);
    PermutationKeepsDistinct(b, Bucket(c, k));
  }

  lemma BucketMembers(b: seq<Combination>, c: nat, k: nat)
    requires c < Columns && k < SizeClasses
    requires multiset(b) == multiset(Bucket(c, k))
    ensures forall combo :: combo in b ==>
      |combo| == k + 1 && Ascending(combo) && InRange(combo, Start(c), End(c))
  {
    forall combo | combo in b
      ensures |combo| == k + 1 && Ascending(combo) && InRange(combo, Start(c), End(c))
    {
      assert combo in multiset(Bucket(c, k));
      CombinationsMembers(Start(c), End(c), k + 1, combo);
    }
  }

  /** The unshuffled buckets: bucket (c, k) lists every ascending
      combination of k + 1 numbers of column c once, Binomial-many of them. */
  function Canonical(): (columns: Buckets)
    ensures BucketsOk(columns) && WellFormed(columns)
    ensures forall c, k :: 0 <= c < Columns && 0 <= k < SizeClasses ==>
      NoDuplicates(columns[c][k]) && |columns[c][k]| == Binomial(End(c) - Start(c), k + 1)
  {
    var columns := seq(Columns, c requires 0 <= c < Columns => seq(SizeClasses, k requires 0 <= k < SizeClasses => Bucket(c, k)));
    CanonicalFacts(columns);
    columns
  }

  lemma CanonicalFacts(columns: Buckets)
    requires BucketsOk(columns)
    ensures WellFormed(columns)
    ensures forall c, k :: 0 <= c < Columns && 0 <= k < SizeClasses ==>
      NoDuplicates(columns[c][k]) && |columns[c][k]| == Binomial(End(c) - Start(c), k + 1)
  {
    BucketsOkWellFormed(columns);
    forall c, k | 0 <= c < Columns && 0 <= k < SizeClasses
      ensures |Bucket(c, k)| == Binomial(End(c) - Start(c), k + 1)
    {
      CombinationsCount(Start(c), End(c), k + 1);
    }
  }

  /** A column's buckets shuffled one after the other, and the stream
      position after the last shuffle. */
  datatype ColumnShuffle = ColumnShuffle(column: seq<seq<Combination>>, used: nat)

  /** Columns shuffled one after the other, and the stream position after
      the last shuffle. */
  datatype ColumnsShuffle = ColumnsShuffle(columns: Buckets, used: nat)

  /** Column c's three buckets, shuffled one after the other from stream
      position `used`, and the stream position after the third. */
  function ShuffledColumnAt(stream: Keystream, used: nat, c: nat): ColumnShuffle
    requires c < Columns
  {
    var pairsAt := used + Draws(|Bucket(c, 0)|);
    var triplesAt := pairsAt + Draws(|Bucket(c, 1)|);
    ColumnShuffle([Shuffled(Bucket(c, 0), stream, used), Shuffled(Bucket(c, 1), stream, pairsAt), Shuffled(Bucket(c, 2), stream, triplesAt)],
              triplesAt + Draws(|Bucket(c, 2)|))
  }

  /** The columns numbered by `cs` shuffled in that order from stream
      position `used`, and the stream position after them. */
  function ShuffledColumnList(stream: Keystream, used: nat, cs: seq<nat>): ColumnsShuffle
    requires forall i :: 0 <= i < |cs| ==> cs[i] < Columns
    decreases |cs|
  {
    if cs == [] then ColumnsShuffle([], used)
    else
      var before := ShuffledColumnList(stream, used, cs[..|cs| - 1]);
      var column := ShuffledColumnAt(stream, before.used, cs[|cs| - 1]);
      ColumnsShuffle(before.columns + [column.column], column.used)
  }

  /** Columns 0..n shuffled in turn from stream position `used`, and the
      stream position after them. */
  function ShuffledColumns(stream: Keystream, used: nat, n: nat): ColumnsShuffle
    requires n <= Columns
  {
    ShuffledColumnList(stream, used, Range(0, n))
  }

  /** Shuffling columns 0..n is shuffling columns 0..n - 1, then column n - 1. */
  lemma ShuffledColumnsStep(stream: Keystream, used: nat, n: nat)
    requires 0 < n <= Columns
    ensures ShuffledColumns(stream, used, n)
         == var before := ShuffledColumns(stream, used, n - 1);
            var column := ShuffledColumnAt(stream, before.used, n - 1);
            ColumnsShuffle(before.columns + [column.column], column.used)
  {
    assert Range(0, n)[..n - 1] == Range(0, n - 1);
  }

  /** A shuffled column holds its canonical buckets, reordered. */
  lemma ShuffledColumnOk(stream: Keystream, used: nat, c: nat)
    requires c < Columns
    ensures ColumnOk(ShuffledColumnAt(stream, used, c).column, c)
  {
    var column := ShuffledColumnAt(stream, used, c).column;
    forall k | 0 <= k < SizeClasses
      ensures multiset(column[k]) == multiset(Bucket(c, k))
    {
      var at := if k == 0 then used
        else if k == 1 then used + Draws(|Bucket(c, 0)|)
        else used + Draws(|Bucket(c, 0)|) + Draws(|Bucket(c, 1)|);
      assert column[k] == Shuffled(Bucket(c, k), stream, at);
      ShuffledPermutes(Bucket(c, k), stream, at);
    }
  }

  lemma {:induction false} ShuffledColumnsOk(stream: Keystream, used: nat, n: nat)
    requires n <= Columns
    ensures |ShuffledColumns(stream, used, n).columns| == n
    ensures forall c :: 0 <= c < n ==> ColumnOk(ShuffledColumns(stream, used, n).columns[c], c)
  {
    if n > 0 {
      ShuffledColumnsStep(stream, used, n);
      var before := ShuffledColumns(stream, used, n - 1);
      ShuffledColumnsOk(stream, used, n - 1);
      ShuffledColumnOk(stream, before.used, n - 1);
      ColumnsOkSnoc(before.columns, ShuffledColumnAt(stream, before.used, n - 1).column);
    }
  }

  /** Appending column |columns| to columns that are all right. */
  lemma ColumnsOkSnoc(columns: Buckets, column: seq<seq<Combination>>)
    requires |columns| < Columns
    requires forall c :: 0 <= c < |columns| ==> ColumnOk(columns[c], c)
    requires ColumnOk(column, |columns|)
    ensures forall c :: 0 <= c <= |columns| ==> ColumnOk((columns + [column])[c], c)
  {
    forall c | 0 <= c <= |columns|
      ensures ColumnOk((columns + [column])[c], c)
    {
      if c < |columns| {
        assert (columns + [column])[c] == columns[c];
      } else {
        assert (columns + [column])[c] == column;
      }
    }
  }

  /** The buckets of a generator whose stream is `stream`: every column
      shuffled in turn from the start of the stream. */
  function InitialColumns(stream: Keystream): Buckets {
    ShuffledColumns(stream, 0, Columns).columns
  }

  /** The configuration list of a generator whose stream is `stream`: all
      configurations, shuffled with the stream where the buckets left it. */
  function InitialConfigurations(stream: Keystream): seq<Configuration> {
    Shuffled(AllConfigurations(), stream, ShuffledColumns(stream, 0, Columns).used)
  }

  /** Whatever the stream, each bucket is a reordering of its canonical
      combinations and the configuration list a reordering of all
      configurations. */
  lemma InitialOk(stream: Keystream)
    ensures BucketsOk(InitialColumns(stream))
    ensures ConfigsOk(InitialConfigurations(stream))
  {
    ShuffledColumnsOk(stream, 0, Columns);
    InitialConfigurationsOk(stream);
  }

  lemma InitialConfigurationsOk(stream: Keystream)
    ensures ConfigsOk(InitialConfigurations(stream))
  {
    ShuffledPermutes(AllConfigurations(), stream, ShuffledColumns(stream, 0, Columns).used);
  }

  /** Builds the 27 buckets column by column and shuffles each in place with
      the generator's stream. */
  method BuildColumns(rng: Rng) returns (columns: Buckets)
    modifies rng
    ensures ColumnsShuffle(columns, rng.used) == ShuffledColumns(rng.stream, old(rng.used), Columns)
  {
    ghost var used := rng.used;
    columns := [];
    for c := 0 to Columns
      invariant ColumnsShuffle(columns, rng.used) == ShuffledColumns(rng.stream, used, c)
    {
      var column := ShuffledColumn(rng, c);
      columns := columns + [column];
      ShuffledColumnsStep(rng.stream, used, c + 1);
    }
  }

  /** The three buckets of column c, each shuffled in turn. */
  method ShuffledColumn(rng: Rng, c: nat) returns (column: seq<seq<Combination>>)
    requires c < Columns
    modifies rng
    ensures ColumnShuffle(column, rng.used) == ShuffledColumnAt(rng.stream, old(rng.used), c)
  {
    ghost var used := rng.used;
    var singles := ShuffledBucket(rng, c, 0);
    ghost var pairsAt := rng.used;
    var pairs := ShuffledBucket(rng, c, 1);
    ghost var triplesAt := rng.used;
    var triples := ShuffledBucket(rng, c, 2);
    column := [singles, pairs, triples];
    assert pairsAt == used + Draws(|Bucket(c, 0)|);
    assert triplesAt == pairsAt + Draws(|Bucket(c, 1)|);
    assert singles == Shuffled(Bucket(c, 0), rng.stream, used);
    assert pairs == Shuffled(Bucket(c, 1), rng.stream, pairsAt);
    assert triples == Shuffled(Bucket(c, 2), rng.stream, triplesAt);
  }

  /** `range.combinations(k + 1)` collected into a vector and shuffled. */
  method ShuffledBucket(rng: Rng, c: nat, k: nat) returns (bucket: seq<Combination>)
    requires c < Columns
    modifies rng
    ensures bucket == Shuffled(Bucket(c, k), rng.stream, old(rng.used))
    ensures rng.used == old(rng.used) + Draws(|Bucket(c, k)|)
  {
    var combinations := Bucket(c, k);
    var a := new Combination[|combinations|](i requires 0 <= i < |combinations| => combinations[i]);
    assert a[..] == combinations;
    Shuffle(rng, a);
    bucket := a[..];
  }

  // ----- configurations -----

  /** Walks the `iproduct!` tuples in order and keeps those summing to 6. */
  method EnumerateConfigurations() returns (configurations: seq<Configuration>)
    ensures configurations == AllConfigurations()
  {
    configurations := KeepWithSum(Tuples(Columns), 6);
  }

  /** The loop over the tuples: pushes each tuple whose components sum to s. */
  method KeepWithSum(product: seq<Configuration>, s: nat) returns (kept: seq<Configuration>)
    ensures kept == WithSum(product, s)
  {
    kept := [];
    for i := 0 to |product|
      invariant kept == WithSum(product[..i], s)
    {
      var configuration := product[i];
      assert product[..i + 1] == product[..i] + [configuration];
      WithSumSnoc(product[..i], configuration, s);
      if Sum(configuration) == s {
        kept := kept + [configuration];
      }
    }
    assert product[..|product|] == product;
  }

  /** The configuration list, shuffled in place with the generator's stream. */
  method BuildConfigurations(rng: Rng) returns (configurations: seq<Configuration>)
    modifies rng
    ensures configurations == Shuffled(AllConfigurations(), rng.stream, old(rng.used))
    ensures rng.used == old(rng.used) + Draws(|AllConfigurations()|)
  {
    var all := EnumerateConfigurations();
    var a := new Configuration[|all|](i requires 0 <= i < |all| => all[i]);
    assert a[..] == all;
    Shuffle(rng, a);
    configurations := a[..];
  }

  /** The configuration list holds every configuration exactly once: 1554 of
      them, whatever order the shuffle chose. */
  lemma ConfigsOkFacts(configs: seq<Configuration>)
    requires ConfigsOk(configs)
    ensures ConfigsWellFormed(configs)
    ensures |configs| == 1554 && NoDuplicates(configs)
    ensures forall config :: config in configs <==> IsConfiguration(config)
  {
    ConfigsOkMembers(configs);
    assert forall i :: 0 <= i < |configs| ==> configs[i] in configs;
  }

  lemma ConfigsOkMembers(configs: seq<Configuration>)
    requires ConfigsOk(configs)
    ensures |configs| == 1554 && NoDuplicates(configs)
    ensures forall config :: config in configs <==> IsConfiguration(config)
  {
    ConfigurationCount.ConfigurationCount();
    assert |configs| == |multiset(configs)| == |multiset(AllConfigurations())| == |AllConfigurations()|;
    AllConfigurationsMembers([]);
    PermutationKeepsDistinct(configs, AllConfigurations());
    forall config ensures config in configs <==> IsConfiguration(config) {
      assert config in configs <==> config in Elems(configs);
      AllConfigurationsMembers(config);
    }
  }

  // ----- one ticket -----

  /** The next combination the cycle over bucket (c, k) yields. */
  function Pick(columns: Buckets, cursors: Cursors, c: nat, k: nat): (r: Combination)
    requires Stocked(columns) && Shaped(cursors) && c < Columns && k < SizeClasses
    ensures r in columns[c][k]
  {
    CycleItem(columns[c][k], cursors[c][k])
  }

  /** What the cycle yields is a combination of the bucket's shape. */
  lemma PickShape(columns: Buckets, cursors: Cursors, c: nat, k: nat)
    requires WellFormed(columns) && Shaped(cursors) && c < Columns && k < SizeClasses
    ensures |Pick(columns, cursors, c, k)| == k + 1
    ensures Ascending(Pick(columns, cursors, c, k))
    ensures InRange(Pick(columns, cursors, c, k), Start(c), End(c))
  {
  }

  /** The numbers columns 0..n contribute to a ticket with configuration
      `config`: column c takes the next combination of bucket (c, config[c]). */
  function Assemble(columns: Buckets, cursors: Cursors, config: Configuration, n: nat): Ticket
    requires Stocked(columns) && Shaped(cursors) && IsConfiguration(config) && n <= Columns
  {
    if n == 0 then []
    else Assemble(columns, cursors, config, n - 1) + Pick(columns, cursors, n - 1, config[n - 1])
  }

  /** Two ascending runs, the first below `mid` and the second from `mid` on,
      make one ascending run. */
  lemma AscendingConcat(a: seq<nat>, b: seq<nat>, lo: nat, mid: nat, hi: nat)
    requires lo <= mid <= hi
    requires Ascending(a) && InRange(a, lo, mid)
    requires Ascending(b) && InRange(b, mid, hi)
    ensures Ascending(a + b) && InRange(a + b, lo, hi)
  {
    var ab := a + b;
    forall i, j | 0 <= i < j < |ab| ensures ab[i] < ab[j] {
      if j < |a| {
        assert ab[i] == a[i] && ab[j] == a[j];
      } else if i >= |a| {
        assert ab[i] == b[i - |a|] && ab[j] == b[j - |a|];
      } else {
        assert ab[i] == a[i] && ab[j] == b[j - |a|];
      }
    }
    forall i | 0 <= i < |ab| ensures lo <= ab[i] < hi {
      if i < |a| {
        assert ab[i] == a[i];
      } else {
        assert ab[i] == b[i - |a|];
      }
    }
  }

  /** Columns 0..n fill n + (their size classes) slots. */
  lemma {:induction false} AssembleLength(columns: Buckets, cursors: Cursors, config: Configuration, n: nat)
    requires WellFormed(columns) && Shaped(cursors) && IsConfiguration(config) && n <= Columns
    ensures |Assemble(columns, cursors, config, n)| == n + Sum(config[..n])
  {
    if n == 0 {
      assert config[..0] == [];
    } else {
      AssembleLength(columns, cursors, config, n - 1);
      SumStep(config, n - 1);
      PickShape(columns, cursors, n - 1, config[n - 1]);
    }
  }

  /** Columns 0..n fill their slots in ascending order, with numbers from 1
      up to the end of column n - 1's range. */
  lemma {:induction false} AssembleShape(columns: Buckets, cursors: Cursors, config: Configuration, n: nat)
    requires WellFormed(columns) && Shaped(cursors) && IsConfiguration(config) && n <= Columns
    ensures Ascending(Assemble(columns, cursors, config, n))
    ensures n > 0 ==> InRange(Assemble(columns, cursors, config, n), 1, End(n - 1))
  {
    if n > 0 {
      AssembleShape(columns, cursors, config, n - 1);
      ColumnRangesPartition();
      var a := Assemble(columns, cursors, config, n - 1);
      var p := Pick(columns, cursors, n - 1, config[n - 1]);
      PickShape(columns, cursors, n - 1, config[n - 1]);
      AscendingConcat(a, p, 1, Start(n - 1), End(n - 1));
    }
  }

  /** The assembled ticket is a ticket: exactly 15 slots, strictly ascending,
      all numbers in 1..90 and therefore pairwise distinct. */
  lemma AssembledTicket(columns: Buckets, cursors: Cursors, config: Configuration)
    requires WellFormed(columns) && Shaped(cursors) && IsConfiguration(config)
    ensures IsTicket(Assemble(columns, cursors, config, Columns))
    ensures NoDuplicates(Assemble(columns, cursors, config, Columns))
  {
    AssembleLength(columns, cursors, config, Columns);
    AssembleShape(columns, cursors, config, Columns);
    assert config[..Columns] == config;
  }

  /** Assembling fewer columns gives a prefix. */
  lemma {:induction false} AssemblePrefix(columns: Buckets, cursors: Cursors, config: Configuration, m: nat, n: nat)
    requires Stocked(columns) && Shaped(cursors) && IsConfiguration(config) && m <= n <= Columns
    ensures |Assemble(columns, cursors, config, m)| <= |Assemble(columns, cursors, config, n)|
    ensures Assemble(columns, cursors, config, n)[..|Assemble(columns, cursors, config, m)|]
         == Assemble(columns, cursors, config, m)
  {
    if m < n {
      AssemblePrefix(columns, cursors, config, m, n - 1);
    }
  }

  /** Column c's slots of the ticket, which follow the slots of columns
      0..c, hold exactly the combination its bucket yielded. */
  lemma AssembleColumn(columns: Buckets, cursors: Cursors, config: Configuration, c: nat, t: Ticket, lo: nat)
    requires Stocked(columns) && Shaped(cursors) && IsConfiguration(config) && c < Columns
    requires t == Assemble(columns, cursors, config, Columns)
    requires lo == |Assemble(columns, cursors, config, c)|
    ensures lo + |Pick(columns, cursors, c, config[c])| <= |t|
    ensures t[lo..lo + |Pick(columns, cursors, c, config[c])|] == Pick(columns, cursors, c, config[c])
  {
    var before := Assemble(columns, cursors, config, c);
    var p := Pick(columns, cursors, c, config[c]);
    assert Assemble(columns, cursors, config, c + 1) == before + p;
    AssemblePrefix(columns, cursors, config, c + 1, Columns);
    SliceOfPrefix(t, before, p);
  }

  lemma SliceOfPrefix(t: seq<nat>, before: seq<nat>, p: seq<nat>)
    requires |before| + |p| <= |t| && t[..|before| + |p|] == before + p
    ensures t[|before|..|before| + |p|] == p
  {
    assert t[|before|..|before| + |p|] == (before + p)[|before|..];
  }

  /** The cursors after columns 0..n have each taken their combination. */
  function AdvanceUpTo(cursors: Cursors, config: Configuration, n: nat): (r: Cursors)
    requires Shaped(cursors) && IsConfiguration(config) && n <= Columns
    ensures Shaped(r)
  {
    if n == 0 then cursors
    else
      var prev := AdvanceUpTo(cursors, config, n - 1);
      var k := config[n - 1];
      prev[n - 1 := prev[n - 1][k := prev[n - 1][k] + 1]]
  }

  /** The cursors after one ticket with configuration `config`. */
  function Advance(cursors: Cursors, config: Configuration): Cursors
    requires Shaped(cursors) && IsConfiguration(config)
  {
    AdvanceUpTo(cursors, config, Columns)
  }

  lemma {:induction false} AdvanceUpToEffect(cursors: Cursors, config: Configuration, n: nat, c: nat, k: nat)
    requires Shaped(cursors) && IsConfiguration(config) && n <= Columns
    requires c < Columns && k < SizeClasses
    ensures AdvanceUpTo(cursors, config, n)[c][k] == cursors[c][k] + (if c < n && config[c] == k then 1 else 0)
  {
    if n > 0 {
      AdvanceUpToEffect(cursors, config, n - 1, c, k);
    }
  }

  /** One ticket moves the cursor of exactly the bucket each column draws
      from, by one; the other 18 buckets keep their cursors. */
  lemma AdvanceEffect(cursors: Cursors, config: Configuration, c: nat, k: nat)
    requires Shaped(cursors) && IsConfiguration(config) && c < Columns && k < SizeClasses
    ensures Advance(cursors, config)[c][k] == cursors[c][k] + (if config[c] == k then 1 else 0)
  {
    AdvanceUpToEffect(cursors, config, Columns, c, k);
  }

  /** The body of `generate`: fills the 15 slots of a zeroed ticket column by
      column, taking the next combination of bucket (c, config[c]) for each
      column c. Returns the ticket and the advanced cursors. */
  method FillTicket(columns: Buckets, cursors: Cursors, config: Configuration) returns (ticket: Ticket, after: Cursors)
    requires WellFormed(columns) && Shaped(cursors) && IsConfiguration(config)
    ensures ticket == Assemble(columns, cursors, config, Columns) && IsTicket(ticket)
    ensures after == Advance(cursors, config)
  {
    var slots := new nat[TicketSize](_ => 0);
    var ticketIndex := 0;
    after := cursors;
    for c := 0 to Columns
      invariant ticketIndex == c + Sum(config[..c]) <= TicketSize
      invariant slots[..ticketIndex] == Assemble(columns, cursors, config, c)
      invariant after == AdvanceUpTo(cursors, config, c)
    {
      PickShape(columns, cursors, c, config[c]);
      ticketIndex, after := FillColumn(slots, columns, cursors, config, c, ticketIndex, after);
    }
    assert config[..Columns] == config;
    ticket := slots[..];
    assert ticket == slots[..ticketIndex];
    AssembledTicket(columns, cursors, config);
  }

  /** One pass of the column loop of `generate`: column c takes the next
      combination of its bucket for `config[c]`, copies it into the slots
      after the numbers of columns 0..c, and moves that bucket's cursor. */
  method FillColumn(slots: array<nat>, columns: Buckets, cursors: Cursors, config: Configuration,
                    c: nat, from: nat, before: Cursors) returns (next: nat, after: Cursors)
    requires Stocked(columns) && Shaped(cursors) && IsConfiguration(config) && c < Columns
    requires |Pick(columns, cursors, c, config[c])| == config[c] + 1  // see PickShape
    requires slots.Length == TicketSize
    requires from == c + Sum(config[..c]) <= TicketSize
    requires slots[..from] == Assemble(columns, cursors, config, c)
    requires before == AdvanceUpTo(cursors, config, c)
    modifies slots
    ensures next == c + 1 + Sum(config[..c + 1]) <= TicketSize
    ensures slots[..next] == Assemble(columns, cursors, config, c + 1)
    ensures slots[next..] == old(slots[next..])
    ensures after == AdvanceUpTo(cursors, config, c + 1)
  {
    var k := config[c];
    var bucket := columns[c][k];
    var numbers := CycleItem(bucket, before[c][k]);
    assert numbers == Pick(columns, cursors, c, k) by {
      AdvanceUpToEffect(cursors, config, c, c, k);
    }
    after := before[c := before[c][k := before[c][k] + 1]];
    assert from + |numbers| == c + 1 + Sum(config[..c + 1]) <= TicketSize by {
      SumStep(config, c);
      SumPrefixBound(config, c + 1);
    }
    next := CopyCombination(slots, from, numbers);
  }

  /** The inner loop of `generate`: writes `numbers` into the slots from
      `from` on and returns the next free slot. */
  method CopyCombination(slots: array<nat>, from: nat, numbers: seq<nat>) returns (next: nat)
    requires from + |numbers| <= slots.Length
    modifies slots
    ensures next == from + |numbers|
    ensures slots[..next] == old(slots[..from]) + numbers
    ensures slots[next..] == old(slots[next..])
  {
    next := from;
    for j := 0 to |numbers|
      invariant next == from + j
      invariant slots[..next] == old(slots[..from]) + numbers[..j]
      invariant forall i :: from + |numbers| <= i < slots.Length ==> slots[i] == old(slots[i])
    {
      slots[next] := numbers[j];
      next := next + 1;
      assert numbers[..j + 1] == numbers[..j] + [numbers[j]];
    }
    assert numbers[..|numbers|] == numbers;
  }

  // ----- a run of tickets -----

  /** The first n tickets of a generator whose stream is `stream`: a run from
      the start of every cycle. */
  function FirstTickets(stream: Keystream, n: nat): seq<Ticket> {
    InitialFacts(stream);
    Batch(InitialColumns(stream), ZeroCursors(), InitialConfigurations(stream), 0, n)
  }

  lemma InitialFacts(stream: Keystream)
    ensures WellFormed(InitialColumns(stream))
    ensures ConfigsWellFormed(InitialConfigurations(stream))
  {
    InitialOk(stream);
    BucketsOkWellFormed(InitialColumns(stream));
    ConfigsOkFacts(InitialConfigurations(stream));
  }

  /** Every ticket of a generator's first run is a ticket, whatever the seed. */
  lemma FirstTicketsAreTickets(stream: Keystream, n: nat)
    ensures forall i :: 0 <= i < n ==> IsTicket(FirstTickets(stream, n)[i])
  {
    InitialFacts(stream);
    BatchTickets(InitialColumns(stream), ZeroCursors(), InitialConfigurations(stream), 0, n);
  }

  /** Item m of the cycle over the configuration list. */
  function ConfigAt(configs: seq<Configuration>, m: nat): (config: Configuration)
    requires ConfigsWellFormed(configs)
    ensures IsConfiguration(config) && config in configs
  {
    CycleItem(configs, m)
  }

  /** The cursors after n tickets whose configurations are taken cyclically
      from `configs`, beginning with CycleItem(configs, start). */
  function CursorsAfter(cursors: Cursors, configs: seq<Configuration>, start: nat, n: nat): (r: Cursors)
    requires Shaped(cursors) && ConfigsWellFormed(configs)
    ensures Shaped(r)
  {
    if n == 0 then cursors
    else Advance(CursorsAfter(cursors, configs, start, n - 1), ConfigAt(configs, start + n - 1))
  }

  /** Ticket i of a run: configuration (start + i) mod |configs|, with the
      cursors the i earlier tickets left behind. */
  function TicketAt(columns: Buckets, cursors: Cursors, configs: seq<Configuration>, start: nat, i: nat): Ticket
    requires Stocked(columns) && Shaped(cursors) && ConfigsWellFormed(configs)
  {
    Assemble(columns, CursorsAfter(cursors, configs, start, i), ConfigAt(configs, start + i), Columns)
  }

  /** The n tickets produced that way. */
  function Batch(columns: Buckets, cursors: Cursors, configs: seq<Configuration>, start: nat, n: nat): (r: seq<Ticket>)
    requires Stocked(columns) && Shaped(cursors) && ConfigsWellFormed(configs)
  {
    seq(n, i requires 0 <= i < n => TicketAt(columns, cursors, configs, start, i))
  }

  /** How many of the first n tickets draw column c from bucket (c, k). */
  function Uses(configs: seq<Configuration>, start: nat, n: nat, c: nat, k: nat): nat
    requires ConfigsWellFormed(configs) && c < Columns
  {
    if n == 0 then 0
    else
      var config := ConfigAt(configs, start + n - 1);
      Uses(configs, start, n - 1, c, k) + (if config[c] == k then 1 else 0)
  }

  /** Each bucket's cursor counts the tickets that drew from that bucket. */
  lemma {:induction false} CursorsAfterUses(cursors: Cursors, configs: seq<Configuration>, start: nat, n: nat, c: nat, k: nat)
    requires Shaped(cursors) && ConfigsWellFormed(configs) && c < Columns && k < SizeClasses
    ensures CursorsAfter(cursors, configs, start, n)[c][k] == cursors[c][k] + Uses(configs, start, n, c, k)
  {
    if n > 0 {
      CursorsAfterUses(cursors, configs, start, n - 1, c, k);
      AdvanceEffect(CursorsAfter(cursors, configs, start, n - 1), ConfigAt(configs, start + n - 1), c, k);
    }
  }

  /** Column c of ticket i is item m of bucket (c, k)'s cycle, that is
      `CycleItem(columns[c][k], m)`, where k is the size class the
      ticket's configuration gives column c and m counts the cursor's start
      plus the earlier tickets that drew from the same bucket. */
  lemma TicketColumn(columns: Buckets, cursors: Cursors, configs: seq<Configuration>, start: nat, i: nat, c: nat)
      returns (k: nat, lo: nat)
    requires WellFormed(columns) && Shaped(cursors) && ConfigsWellFormed(configs) && c < Columns
    ensures k == ConfigAt(configs, start + i)[c] < SizeClasses
    ensures lo == c + Sum(ConfigAt(configs, start + i)[..c])
    ensures lo + k + 1 <= |TicketAt(columns, cursors, configs, start, i)|
    ensures TicketAt(columns, cursors, configs, start, i)[lo..lo + k + 1]
         == CycleItem(columns[c][k], cursors[c][k] + Uses(configs, start, i, c, k))
  {
    var config := ConfigAt(configs, start + i);
    k := config[c];
    lo := c + Sum(config[..c]);
    var after := CursorsAfter(cursors, configs, start, i);
    AssembleLength(columns, after, config, c);
    PickShape(columns, after, c, k);
    AssembleColumn(columns, after, config, c, TicketAt(columns, cursors, configs, start, i), lo);
    PickAfter(columns, cursors, configs, start, i, c, k);
  }

  /** Column c's slots of ticket i, the k + 1 of them after the slots of
      columns 0..c, hold numbers of column c's range only. */
  lemma ColumnInRange(columns: Buckets, cursors: Cursors, configs: seq<Configuration>, start: nat, i: nat, c: nat)
      returns (k: nat, lo: nat)
    requires WellFormed(columns) && Shaped(cursors) && ConfigsWellFormed(configs) && c < Columns
    ensures k == ConfigAt(configs, start + i)[c] && lo == c + Sum(ConfigAt(configs, start + i)[..c])
    ensures lo + k + 1 <= |TicketAt(columns, cursors, configs, start, i)|
    ensures InRange(TicketAt(columns, cursors, configs, start, i)[lo..lo + k + 1], Start(c), End(c))
  {
    k, lo := TicketColumn(columns, cursors, configs, start, i, c);
    BucketItemInRange(columns, c, k, cursors[c][k] + Uses(configs, start, i, c, k));
  }

  lemma BucketItemInRange(columns: Buckets, c: nat, k: nat, m: nat)
    requires WellFormed(columns) && c < Columns && k < SizeClasses
    ensures InRange(CycleItem(columns[c][k], m), Start(c), End(c))
  {
    assert CycleItem(columns[c][k], m) in columns[c][k];
  }

  /** The combination bucket (c, k) yields after n tickets of a run. */
  lemma PickAfter(columns: Buckets, cursors: Cursors, configs: seq<Configuration>, start: nat, n: nat, c: nat, k: nat)
    requires Stocked(columns) && Shaped(cursors) && ConfigsWellFormed(configs)
    requires c < Columns && k < SizeClasses
    ensures Pick(columns, CursorsAfter(cursors, configs, start, n), c, k)
         == CycleItem(columns[c][k], cursors[c][k] + Uses(configs, start, n, c, k))
  {
    var after := CursorsAfter(cursors, configs, start, n);
    CursorsAfterUses(cursors, configs, start, n, c, k);
    assert after[c][k] == cursors[c][k] + Uses(configs, start, n, c, k);
  }

  /** Splitting a run: the second part continues with the cursors and the
      configuration position the first part left behind. */
  lemma {:induction false} CursorsAfterSplit(cursors: Cursors, configs: seq<Configuration>, start: nat, a: nat, b: nat)
    requires Shaped(cursors) && ConfigsWellFormed(configs)
    ensures CursorsAfter(cursors, configs, start, a + b)
         == CursorsAfter(CursorsAfter(cursors, configs, start, a), configs, start + a, b)
  {
    if b > 0 {
      CursorsAfterSplit(cursors, configs, start, a, b - 1);
      assert start + a + (b - 1) == start + (a + b) - 1;
    }
  }

  /** Ticket a + j of a run is ticket j of a run that starts where the first
      a tickets left the cursors and the configuration cycle. */
  lemma TicketAtSplit(columns: Buckets, cursors: Cursors, configs: seq<Configuration>, start: nat, a: nat, j: nat)
    requires Stocked(columns) && Shaped(cursors) && ConfigsWellFormed(configs)
    ensures TicketAt(columns, cursors, configs, start, a + j)
         == TicketAt(columns, CursorsAfter(cursors, configs, start, a), configs, start + a, j)
  {
    CursorsAfterSplit(cursors, configs, start, a, j);
  }

  /** The cursors of freshly built cycles: nothing yielded yet. */
  function ZeroCursors(): (r: Cursors)
    ensures Shaped(r)
    ensures forall c, k :: 0 <= c < Columns && 0 <= k < SizeClasses ==> r[c][k] == 0
  {
    seq(Columns, c requires 0 <= c < Columns => seq(SizeClasses, k requires 0 <= k < SizeClasses => 0))
  }

  /** One more ticket extends the run by the ticket the n earlier ones lead to. */
  lemma BatchSnoc(columns: Buckets, cursors: Cursors, configs: seq<Configuration>, start: nat, n: nat)
    requires Stocked(columns) && Shaped(cursors) && ConfigsWellFormed(configs)
    ensures Batch(columns, cursors, configs, start, n + 1)
         == Batch(columns, cursors, configs, start, n) + [TicketAt(columns, cursors, configs, start, n)]
  {
  }

  /** Every ticket of a run is a ticket: 15 distinct, strictly ascending
      numbers in 1..90. */
  lemma BatchTickets(columns: Buckets, cursors: Cursors, configs: seq<Configuration>, start: nat, n: nat)
    requires WellFormed(columns) && Shaped(cursors) && ConfigsWellFormed(configs)
    ensures |Batch(columns, cursors, configs, start, n)| == n
    ensures forall i :: 0 <= i < n ==> IsTicket(Batch(columns, cursors, configs, start, n)[i])
  {
    forall i | 0 <= i < n
      ensures IsTicket(TicketAt(columns, cursors, configs, start, i))
    {
      AssembledTicket(columns, CursorsAfter(cursors, configs, start, i), ConfigAt(configs, start + i));
    }
  }

  /** The configuration cycle repeats with period |configs|: pull m and pull
      m + |configs| use the same configuration. */
  lemma ConfigPeriod(configs: seq<Configuration>, m: nat)
    requires ConfigsWellFormed(configs)
    ensures ConfigAt(configs, m + |configs|) == ConfigAt(configs, m)
  {
    CyclePeriod(configs, m);
  }

  // ----- the estimate -----

  /** The number of tickets configuration `config` allows with columns 0..n:
      the product of the sizes of the buckets it names. */
  function Product(columns: Buckets, config: Configuration, n: nat): nat
    requires Shaped(columns) && IsConfiguration(config) && n <= Columns
  {
    if n == 0 then 1 else Product(columns, config, n - 1) * |columns[n - 1][config[n - 1]]|
  }

  /** The "max set of tickets": the sum of Product over the configurations. */
  function Estimate(columns: Buckets, configs: seq<Configuration>): nat
    requires Shaped(columns) && forall config :: config in configs ==> IsConfiguration(config)
  {
    if configs == [] then 0
    else Estimate(columns, configs[..|configs| - 1]) + Product(columns, configs[|configs| - 1], Columns)
  }

  /** `show_stats`: the sum over the configurations of the product of the
      chosen buckets' lengths. */
  method MaxTickets(columns: Buckets, configs: seq<Configuration>) returns (sum: nat)
    requires Shaped(columns) && forall config :: config in configs ==> IsConfiguration(config)
    ensures sum == Estimate(columns, configs)
  {
    sum := 0;
    for i := 0 to |configs|
      invariant sum == Estimate(columns, configs[..i])
    {
      var configuration := configs[i];
      var mult := 1;
      for c := 0 to Columns
        invariant mult == Product(columns, configuration, c)
      {
        mult := mult * |columns[c][configuration[c]]|;
      }
      assert configs[..i + 1][..i] == configs[..i];
      sum := sum + mult;
    }
    assert configs[..|configs|] == configs;
  }

  lemma {:induction false} EstimateAppend(columns: Buckets, a: seq<Configuration>, b: seq<Configuration>)
    requires Shaped(columns)
    requires forall config :: config in a ==> IsConfiguration(config)
    requires forall config :: config in b ==> IsConfiguration(config)
    ensures Estimate(columns, a + b) == Estimate(columns, a) + Estimate(columns, b)
  {
    if b == [] {
      assert a + b == a;
    } else {
      var last := |b| - 1;
      assert (a + b)[..|a + b| - 1] == a + b[..last];
      EstimateAppend(columns, a, b[..last]);
    }
  }

  /** The estimate does not depend on the order of the configurations. */
  lemma {:induction false} EstimatePermutation(columns: Buckets, a: seq<Configuration>, b: seq<Configuration>)
    requires Shaped(columns) && multiset(a) == multiset(b)
    requires forall config :: config in a ==> IsConfiguration(config)
    ensures forall config :: config in b ==> IsConfiguration(config)
    ensures Estimate(columns, a) == Estimate(columns, b)
    decreases |a|
  {
    SameMembers(a, b);
    if a != [] {
      var x := a[|a| - 1];
      assert x in multiset(b) by {
        assert x in a;
      }
      var i :| 0 <= i < |b| && b[i] == x;
      var others := b[..i] + b[i + 1..];
      RemoveOne(a, b, i);
      EstimatePermutation(columns, a[..|a| - 1], others);
      EstimateRemove(columns, b, i);
    }
  }

  lemma SameMembers<T>(a: seq<T>, b: seq<T>)
    requires multiset(a) == multiset(b)
    ensures forall x :: x in a <==> x in b
  {
    forall x ensures x in a <==> x in b {
      assert x in a <==> x in multiset(a);
      assert x in b <==> x in multiset(b);
    }
  }

  /** Taking the last element off `a` and the same value off `b` keeps the
      multisets equal. */
  lemma RemoveOne<T>(a: seq<T>, b: seq<T>, i: nat)
    requires multiset(a) == multiset(b) && a != [] && i < |b| && b[i] == a[|a| - 1]
    ensures multiset(a[..|a| - 1]) == multiset(b[..i] + b[i + 1..])
  {
    var x := a[|a| - 1];
    assert a == a[..|a| - 1] + [x];
    assert b == b[..i] + [x] + b[i + 1..];
    assert multiset(a) == multiset(a[..|a| - 1]) + multiset{x};
    assert multiset(b) == multiset(b[..i]) + multiset{x} + multiset(b[i + 1..]);
    assert multiset(b[..i] + b[i + 1..]) == multiset(b[..i]) + multiset(b[i + 1..]);
    var front := multiset(a[..|a| - 1]);
    var rest := multiset(b[..i] + b[i + 1..]);
    assert front + multiset{x} == rest + multiset{x};
    assert front == (front + multiset{x}) - multiset{x};
    assert rest == (rest + multiset{x}) - multiset{x};
  }

  /** The estimate of `b` is that of `b` without element i, plus element i's product. */
  lemma EstimateRemove(columns: Buckets, b: seq<Configuration>, i: nat)
    requires Shaped(columns) && i < |b|
    requires forall config :: config in b ==> IsConfiguration(config)
    ensures forall config :: config in b[..i] + b[i + 1..] ==> IsConfiguration(config)
    ensures Estimate(columns, b) == Estimate(columns, b[..i] + b[i + 1..]) + Product(columns, b[i], Columns)
  {
    var x := b[i];
    var single := [x];
    assert b == b[..i] + (single + b[i + 1..]);
    EstimateAppend(columns, b[..i], single + b[i + 1..]);
    EstimateAppend(columns, single, b[i + 1..]);
    EstimateAppend(columns, b[..i], b[i + 1..]);
    assert single[..0] == [];
    assert Estimate(columns, single) == Product(columns, x, Columns);
  }

  /** Products only depend on bucket sizes, which shuffling keeps. */
  lemma {:induction false} ProductSizes(columns: Buckets, config: Configuration, n: nat)
    requires BucketsOk(columns) && IsConfiguration(config) && n <= Columns
    ensures Product(columns, config, n) == Product(Canonical(), config, n) > 0
  {
    if n > 0 {
      ProductSizes(columns, config, n - 1);
      var k := config[n - 1];
      assert |columns[n - 1][k]| == |Canonical()[n - 1][k]| > 0 by {
        assert Canonical()[n - 1][k] == Bucket(n - 1, k);
        BucketLength(columns[n - 1][k], n - 1, k);
      }
      ProductStep(columns, Canonical(), config, n);
    }
  }

  /** Grids whose chosen buckets have the same, positive sizes have the same,
      positive products. */
  lemma ProductStep(columns: Buckets, other: Buckets, config: Configuration, n: nat)
    requires Shaped(columns) && Shaped(other) && IsConfiguration(config) && 0 < n <= Columns
    requires Product(columns, config, n - 1) == Product(other, config, n - 1) > 0
    requires |columns[n - 1][config[n - 1]]| == |other[n - 1][config[n - 1]]| > 0
    ensures Product(columns, config, n) == Product(other, config, n) > 0
  {
    PositiveProduct(Product(columns, config, n - 1), |columns[n - 1][config[n - 1]]|);
  }

  lemma PositiveProduct(a: nat, b: nat)
    requires a > 0 && b > 0
    ensures a * b > 0
  {
  }

  lemma {:induction false} EstimateSizes(columns: Buckets, configs: seq<Configuration>)
    requires BucketsOk(columns) && forall config :: config in configs ==> IsConfiguration(config)
    ensures Estimate(columns, configs) == Estimate(Canonical(), configs)
    ensures configs != [] ==> Estimate(columns, configs) > 0
  {
    if configs != [] {
      EstimateSizes(columns, configs[..|configs| - 1]);
      ProductSizes(columns, configs[|configs| - 1], Columns);
    }
  }

  /** The estimate is positive and the same for every seed: neither the order
      of the buckets' combinations nor the order of the configurations
      changes it. */
  lemma EstimateIndependent(columns: Buckets, configs: seq<Configuration>)
    requires BucketsOk(columns) && ConfigsOk(configs)
    ensures forall config :: config in configs ==> IsConfiguration(config)
    ensures Estimate(columns, configs) == CanonicalEstimate() > 0
  {
    ConfigsOkFacts(configs);
    EstimateSizes(columns, configs);
    AllConfigurationsMembers([]);
    forall config | config in AllConfigurations() ensures IsConfiguration(config) {
      AllConfigurationsMembers(config);
    }
    EstimatePermutation(Canonical(), configs, AllConfigurations());
  }

  /** The estimate for the unshuffled buckets and configurations. */
  function CanonicalEstimate(): nat {
    AllConfigurationsAreConfigurations();
    Estimate(Canonical(), AllConfigurations())
  }

  lemma AllConfigurationsAreConfigurations()
    ensures forall config :: config in AllConfigurations() ==> IsConfiguration(config)
  {
    forall config | config in AllConfigurations() ensures IsConfiguration(config) {
      AllConfigurationsMembers(config);
    }
  }
}
