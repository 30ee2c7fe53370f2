/** The older generator at the root of the repository: the same buckets and
    configurations, but `generate(size)` makes a whole batch at once, with a
    configuration cycle that is local to the call. The bucket cursors live in
    the generator and carry over from one call to the next. */
module LegacyGenerator {
  import opened Common
  import opened Combinatorics
  import opened Random
  import opened Tombola

  /** What the command line chose: how many tickets and the u8 seed. */
  datatype Config = Config(size: nat, seed: Byte)

  class Generator {
    /** The 27 shuffled buckets. */
    const columns: Buckets
    /** How many items each bucket's cycle has yielded. */
    var indexes: Cursors
    /** The shuffled configuration list. */
    const configurations: seq<Configuration>

    ghost predicate Valid()
      reads this
    {
      BucketsOk(columns) && WellFormed(columns) &&
      ConfigsOk(configurations) && ConfigsWellFormed(configurations) &&
      Shaped(indexes)
    }

    /** `Generator::new(seed)`: the buckets shuffled column by column with the
        seeded stream, then the configuration list shuffled with the same
        stream; every bucket cycle at its start. */
    static method New(seed: Byte, seeding: Seeding) returns (g: Generator)
      ensures fresh(g) && g.Valid()
      ensures g.columns == InitialColumns(seeding(seed))
      ensures g.configurations == InitialConfigurations(seeding(seed))
      ensures g.indexes == ZeroCursors()
    {
      var rng := new Rng(seeding(seed));
      var columns := BuildColumns(rng);
      var configurations := BuildConfigurations(rng);
      InitialOk(seeding(seed));
      g := new Generator.FromShuffled(columns, configurations);
    }

    /** The struct literal that ends `new`. */
    constructor FromShuffled(columns: Buckets, configurations: seq<Configuration>)
      requires BucketsOk(columns) && ConfigsOk(configurations)
      ensures Valid()
      ensures this.columns == columns && this.configurations == configurations
      ensures indexes == ZeroCursors()
    {
      BucketsOkWellFormed(columns);
      ConfigsOkFacts(configurations);
      this.columns := columns;
      this.configurations := configurations;
      indexes := ZeroCursors();
    }

    /** `show_stats`: the estimate, the same for every seed. */
    method ShowStats() returns (sum: nat)
      requires Valid()
      ensures sum == Estimate(columns, configurations)
      ensures sum == CanonicalEstimate() > 0
    {
      sum := MaxTickets(columns, configurations);
      EstimateIndependent(columns, configurations);
    }

    /** `generate(size)`: `size` tickets whose configurations come from a
        fresh cycle over the list, so they start again at its front on every
        call, while the bucket cursors go on from where the previous call
        left them. */
    method Generate(size: nat) returns (tickets: seq<Ticket>)
      requires Valid()
      modifies this
      ensures Valid()
      ensures tickets == Batch(columns, old(indexes), configurations, 0, size)
      ensures indexes == CursorsAfter(old(indexes), configurations, 0, size)
    {
      ghost var start := indexes;
      tickets := [];
      for i := 0 to size
        invariant Valid()
        invariant indexes == CursorsAfter(start, configurations, 0, i)
        invariant tickets == Batch(columns, start, configurations, 0, i)
      {
        tickets := GenerateOne(start, tickets, i);
      }
    }

    /** One pass of the loop of `generate`: item i of the local configuration
        cycle, a ticket filled from the buckets it names, pushed. */
    method GenerateOne(ghost start: Cursors, tickets: seq<Ticket>, i: nat) returns (more: seq<Ticket>)
      requires Valid() && Shaped(start)
      requires indexes == CursorsAfter(start, configurations, 0, i)
      requires tickets == Batch(columns, start, configurations, 0, i)
      modifies this
      ensures Valid()
      ensures indexes == CursorsAfter(start, configurations, 0, i + 1)
      ensures more == Batch(columns, start, configurations, 0, i + 1)
    {
      var config := CycleItem(configurations, i);
      var ticket;
      ticket, indexes := FillTicket(columns, indexes, config);
      BatchSnoc(columns, start, configurations, 0, i);
      more := tickets + [ticket];
    }
  }

  /** `run`: builds the generator, shows the estimate, then generates one
      batch of `size` tickets. They are the same tickets the newer
      generator's `run` prints for the same seed. */
  method Run(config: Config, seeding: Seeding) returns (stats: nat, tickets: seq<Ticket>)
    ensures stats == CanonicalEstimate()
    ensures tickets == FirstTickets(seeding(config.seed), config.size)
  {
    var g := Generator.New(config.seed, seeding);
    stats := g.ShowStats();
    tickets := g.Generate(config.size);
  }

  /** A second call restarts the configuration cycle but not the buckets.
      After a first call of n tickets, the second call's ticket j is
      `TicketAt(columns, after, configs, 0, j)` with `after` the cursors the
      first call left: it takes configuration item j again, and the cursor
      of bucket (c, k) has counted the draws of both calls. */
  lemma SecondCallCursors(cursors: Cursors, configs: seq<Configuration>, n: nat, j: nat, c: nat, k: nat)
    requires Shaped(cursors) && ConfigsWellFormed(configs) && c < Columns && k < SizeClasses
    ensures CursorsAfter(CursorsAfter(cursors, configs, 0, n), configs, 0, j)[c][k]
         == cursors[c][k] + Uses(configs, 0, n, c, k) + Uses(configs, 0, j, c, k)
  {
    var after := CursorsAfter(cursors, configs, 0, n);
    CursorsAfterUses(cursors, configs, 0, n, c, k);
    CursorsAfterUses(after, configs, 0, j, c, k);
  }

  /** In contrast, one run of n + j tickets goes on through the cycle: its
      last j tickets take configuration items n, ..., n + j - 1. */
  lemma ContinuedRunCursors(cursors: Cursors, configs: seq<Configuration>, n: nat, j: nat, c: nat, k: nat)
    requires Shaped(cursors) && ConfigsWellFormed(configs) && c < Columns && k < SizeClasses
    ensures CursorsAfter(cursors, configs, 0, n + j)[c][k]
         == cursors[c][k] + Uses(configs, 0, n, c, k) + Uses(configs, n, j, c, k)
  {
    var after := CursorsAfter(cursors, configs, 0, n);
    CursorsAfterSplit(cursors, configs, 0, n, j);
    CursorsAfterUses(cursors, configs, 0, n, c, k);
    CursorsAfterUses(after, configs, n, j, c, k);
  }
}
