/** The ticket generator of the `generator` crate: a generator owns 27
    shuffled buckets with one cycling cursor each, and a shuffled list of
    configurations with one cycling cursor that persists across pulls. */
module Generator {
  import opened Common
  import opened Combinatorics
  import opened Random
  import opened Tombola

  /** What the command line chose: how many tickets, the u8 seed, and whether
      to show the estimate. */
  datatype Config = Config(size: nat, seed: Byte, verbose: bool)

  class Generator {
    /** The 27 shuffled buckets. */
    const columns: Buckets
    /** How many items each bucket's cycle has yielded. */
    var indexes: Cursors
    /** The shuffled configuration list. */
    const configurations: seq<Configuration>
    /** How many items the configuration cycle has yielded. */
    var confCursor: nat

    ghost predicate Valid()
      reads this
    {
      BucketsOk(columns) && WellFormed(columns) &&
      ConfigsOk(configurations) && ConfigsWellFormed(configurations) &&
      Shaped(indexes)
    }

    /** `Generator::new(seed)`: the buckets shuffled column by column with the
        seeded stream, then the configuration list shuffled with the same
        stream, and every cycle at its start. */
    static method New(seed: Byte, seeding: Seeding) returns (g: Generator)
      ensures fresh(g) && g.Valid()
      ensures g.columns == InitialColumns(seeding(seed))
      ensures g.configurations == InitialConfigurations(seeding(seed))
      ensures g.indexes == ZeroCursors() && g.confCursor == 0
    {
      var rng := new Rng(seeding(seed));
      var columns := BuildColumns(rng);
      var configurations := BuildConfigurations(rng);
      InitialOk(seeding(seed));
      g := new Generator.FromShuffled(columns, configurations);
    }

    /** The struct literal that ends `new`: the shuffled buckets and
        configurations, every cursor at zero. */
    constructor FromShuffled(columns: Buckets, configurations: seq<Configuration>)
      requires BucketsOk(columns) && ConfigsOk(configurations)
      ensures Valid()
      ensures this.columns == columns && this.configurations == configurations
      ensures indexes == ZeroCursors() && confCursor == 0
    {
      BucketsOkWellFormed(columns);
      ConfigsOkFacts(configurations);
      this.columns := columns;
      this.configurations := configurations;
      indexes := ZeroCursors();
      confCursor := 0;
    }

    /** `show_stats`: the estimate, the same for every seed. */
    method ShowStats() returns (sum: nat)
      requires Valid()
      ensures sum == Estimate(columns, configurations)
      ensures sum == CanonicalEstimate() > 0
    {
      sum := MaxTickets(columns, configurations);
      EstimateIndependent(columns, configurations);
    }

    /** `generate().next()`: the next configuration of the cycle picks one
        bucket per column, and the ticket is their next combinations in
        column order. Only the cursors of those nine buckets move. */
    method Next() returns (ticket: Ticket)
      requires Valid()
      modifies this
      ensures Valid()
      ensures ticket == Assemble(columns, old(indexes), ConfigAt(configurations, old(confCursor)), Columns)
      ensures IsTicket(ticket)
      ensures indexes == Advance(old(indexes), ConfigAt(configurations, old(confCursor)))
      ensures confCursor == old(confCursor) + 1
    {
      var config := CycleItem(configurations, confCursor);
      confCursor := confCursor + 1;
      ticket, indexes := FillTicket(columns, indexes, config);
      AssembledTicket(columns, old(indexes), config);
    }
  }

  /** `run`: builds the generator, shows the estimate when verbose, then pulls
      `size` tickets. The tickets are the first `size` tickets of the run that
      starts at the beginning of every cycle. */
  method Run(config: Config, seeding: Seeding) returns (stats: Option<nat>, tickets: seq<Ticket>)
    ensures stats == if config.verbose then Some(CanonicalEstimate()) else None
    ensures tickets == FirstTickets(seeding(config.seed), config.size)
  {
    var generator := Generator.New(config.seed, seeding);
    stats := None;
    if config.verbose {
      var sum := generator.ShowStats();
      stats := Some(sum);
    }
    tickets := Pull(generator, config.size);
  }

  /** The `for` loop of `run`: `size` pulls from a fresh generator. */
  method Pull(generator: Generator, size: nat) returns (tickets: seq<Ticket>)
    requires generator.Valid()
    requires generator.indexes == ZeroCursors() && generator.confCursor == 0
    modifies generator
    ensures tickets == Batch(generator.columns, ZeroCursors(), generator.configurations, 0, size)
    ensures generator.Valid() && generator.confCursor == size
    ensures generator.indexes == CursorsAfter(ZeroCursors(), generator.configurations, 0, size)
  {
    tickets := [];
    for i := 0 to size
      invariant generator.Valid()
      invariant generator.confCursor == i
      invariant generator.indexes == CursorsAfter(ZeroCursors(), generator.configurations, 0, i)
      invariant tickets == Batch(generator.columns, ZeroCursors(), generator.configurations, 0, i)
    {
      tickets := PullOne(generator, tickets);
    }
  }

  /** One pass of that loop: the ticket pulled is ticket i of the run. */
  method PullOne(generator: Generator, tickets: seq<Ticket>) returns (more: seq<Ticket>)
    requires generator.Valid()
    requires generator.indexes == CursorsAfter(ZeroCursors(), generator.configurations, 0, generator.confCursor)
    requires tickets == Batch(generator.columns, ZeroCursors(), generator.configurations, 0, generator.confCursor)
    modifies generator
    ensures generator.Valid()
    ensures generator.confCursor == old(generator.confCursor) + 1
    ensures generator.indexes == CursorsAfter(ZeroCursors(), generator.configurations, 0, generator.confCursor)
    ensures more == Batch(generator.columns, ZeroCursors(), generator.configurations, 0, generator.confCursor)
  {
    ghost var i := generator.confCursor;
    var ticket := generator.Next();
    BatchSnoc(generator.columns, ZeroCursors(), generator.configurations, 0, i);
    more := tickets + [ticket];
  }
}
