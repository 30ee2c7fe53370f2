/** The raffle simulator: for each raffle, the numbers 1..90 in a seeded
    random order are drawn one at a time; every ticket that holds the drawn
    number gains a match, a ticket whose count reaches 15 wins, and the
    drawing stops after the first draw that produces a winner. */
module Simulator {
  import opened Common
  import opened Combinatorics
  import opened Random

  /** A ticket as the simulator reads it: 15 numbers, unchecked. */
  type Ticket = seq<nat>

  /** What the command line and the ticket file gave: how many raffles, the
      u8 seed of the first, whether to list winners, and the tickets. */
  datatype Config = Config(size: Byte, seed: Byte, verbose: bool, tickets: seq<Ticket>)

  /** What one raffle reports: its winners and how many numbers were drawn. */
  datatype Outcome = Outcome(winners: seq<Ticket>, position: nat)

  // ----- the draw order -----

  /** The numbers of a raffle with seed `seed`: 1..90 shuffled with the
      stream of that seed. */
  function DrawOrder(seeding: Seeding, seed: Byte): seq<nat> {
    Shuffled(Range(1, 91), seeding(seed), 0)
  }

  /** `get_shuffle_numbers`: collects 1..90 and shuffles it in place. */
  method GetShuffleNumbers(seed: Byte, seeding: Seeding) returns (numbers: seq<nat>)
    ensures numbers == DrawOrder(seeding, seed)
    ensures IsDrawOrder(numbers)
  {
    var rng := new Rng(seeding(seed));
    var a := new nat[90](i => i + 1);
    assert a[..] == Range(1, 91);
    Shuffle(rng, a);
    numbers := a[..];
    DrawOrderFacts(seeding, seed);
  }

  /** The 90 numbers, each once, in some order. */
  predicate IsDrawOrder(numbers: seq<nat>) {
    multiset(numbers) == multiset(Range(1, 91))
  }

  /** Whatever the seed, the draw order holds 1..90 once each, so the 90
      drawn numbers are pairwise distinct. */
  lemma DrawOrderFacts(seeding: Seeding, seed: Byte)
    ensures IsDrawOrder(DrawOrder(seeding, seed))
    ensures |DrawOrder(seeding, seed)| == 90
    ensures NoDuplicates(DrawOrder(seeding, seed))
    ensures InRange(DrawOrder(seeding, seed), 1, 91)
  {
    ShuffledPermutes(Range(1, 91), seeding(seed), 0);
    DrawOrderShape(DrawOrder(seeding, seed));
  }

  lemma DrawOrderShape(numbers: seq<nat>)
    requires IsDrawOrder(numbers)
    ensures |numbers| == 90 && NoDuplicates(numbers) && InRange(numbers, 1, 91)
    ensures forall x :: x in numbers <==> 1 <= x < 91
  {
    assert |numbers| == |multiset(numbers)| == |multiset(Range(1, 91))| == 90;
    assert NoDuplicates(Range(1, 91));
    PermutationKeepsDistinct(numbers, Range(1, 91));
    forall x ensures x in numbers <==> 1 <= x < 91 {
      assert x in numbers <==> x in Elems(numbers);
      if 1 <= x < 91 {
        assert Range(1, 91)[x - 1] == x;
      }
    }
    forall i | 0 <= i < |numbers| ensures 1 <= numbers[i] < 91 {
      assert numbers[i] in numbers;
    }
  }

  // ----- counting matches -----

  /** How many of the drawn numbers the ticket holds: the count the raffle
      keeps for the ticket after drawing `drawn`. */
  function Matches(t: Ticket, drawn: seq<nat>): nat {
    if drawn == [] then 0
    else Matches(t, drawn[..|drawn| - 1]) + (if drawn[|drawn| - 1] in t then 1 else 0)
  }

  /** The distinct tickets whose count is exactly 15. */
  function Winners(tickets: seq<Ticket>, drawn: seq<nat>): set<Ticket> {
    set t | t in tickets && Matches(t, drawn) == 15
  }

  /** Every value of the ticket has been drawn. */
  predicate Covered(t: Ticket, drawn: seq<nat>) {
    forall i :: 0 <= i < |t| ==> t[i] in drawn
  }

  /** A ticket that can win: 15 distinct numbers in 1..90. */
  predicate Playable(t: Ticket) {
    |t| == 15 && NoDuplicates(t) && InRange(t, 1, 91)
  }

  /** With distinct draws, the count is the number of distinct values the
      ticket shares with the draws. */
  lemma {:induction false} MatchesShared(t: Ticket, drawn: seq<nat>)
    requires NoDuplicates(drawn)
    ensures Matches(t, drawn) == |Elems(drawn) * Elems(t)|
  {
    if drawn != [] {
      var front, x := drawn[..|drawn| - 1], drawn[|drawn| - 1];
      DistinctSnoc(drawn);
      MatchesShared(t, front);
      var shared := Elems(front) * Elems(t);
      assert x !in shared;
      assert Matches(t, drawn) == Matches(t, front) + (if x in t then 1 else 0);
      if x in t {
        assert Elems(drawn) * Elems(t) == shared + {x};
        assert |shared + {x}| == |shared| + 1;
      } else {
        assert Elems(drawn) * Elems(t) == shared;
      }
    } else {
      assert Elems(drawn) == {};
    }
  }

  /** Without its last value a sequence of distinct values is still
      distinct, and the last value is not among the others. */
  lemma DistinctSnoc(drawn: seq<nat>)
    requires NoDuplicates(drawn) && drawn != []
    ensures NoDuplicates(drawn[..|drawn| - 1])
    ensures drawn[|drawn| - 1] !in drawn[..|drawn| - 1]
    ensures Elems(drawn) == Elems(drawn[..|drawn| - 1]) + {drawn[|drawn| - 1]}
  {
    var front, x := drawn[..|drawn| - 1], drawn[|drawn| - 1];
    assert drawn == front + [x];
    forall i, j | 0 <= i < j < |front| ensures front[i] != front[j] {
      assert front[i] == drawn[i] && front[j] == drawn[j];
    }
    forall i | 0 <= i < |front| ensures front[i] != x {
      assert front[i] == drawn[i];
    }
  }

  /** A ticket with a repeated value or a value outside 1..90 never reaches
      15 matches, however many distinct numbers of 1..90 are drawn. */
  lemma NeverWins(t: Ticket, drawn: seq<nat>)
    requires |t| == 15 && !Playable(t)
    requires NoDuplicates(drawn) && InRange(drawn, 1, 91)
    ensures Matches(t, drawn) < 15
  {
    MatchesShared(t, drawn);
    ElemsCardinality(t);
    var shared := Elems(drawn) * Elems(t);
    if NoDuplicates(t) {
      var i :| 0 <= i < |t| && !(1 <= t[i] < 91);
      assert t[i] !in Elems(drawn);
      SubsetCardinality(shared, Elems(t) - {t[i]});
    } else {
      SubsetCardinality(shared, Elems(t));
    }
  }

  /** A playable ticket reaches 15 exactly when all its values are drawn. */
  lemma WinsIffCovered(t: Ticket, drawn: seq<nat>)
    requires Playable(t) && NoDuplicates(drawn)
    ensures Matches(t, drawn) == 15 <==> Covered(t, drawn)
  {
    MatchesShared(t, drawn);
    ElemsCardinality(t);
    var shared := Elems(drawn) * Elems(t);
    SubsetCardinality(shared, Elems(t));
    if Covered(t, drawn) {
      assert Elems(t) <= Elems(drawn);
      assert shared == Elems(t);
    }
    if Matches(t, drawn) == 15 {
      forall i | 0 <= i < |t| ensures t[i] in drawn {
        assert t[i] in Elems(t);
      }
    }
  }

  // ----- one raffle -----

  /** What one raffle must report: drawing stops after `position` numbers,
      the first prefix of the draw order that gives any ticket 15 matches,
      or after all of them if none does; the winners are the distinct
      tickets with 15 matches at that point, each listed once. */
  ghost predicate IsOutcome(tickets: seq<Ticket>, numbers: seq<nat>, winners: seq<Ticket>, position: nat) {
    position <= |numbers| &&
    NoDuplicates(winners) && Elems(winners) == Winners(tickets, numbers[..position]) &&
    (forall q :: 0 <= q < position ==> Winners(tickets, numbers[..q]) == {}) &&
    (winners == [] ==> position == |numbers|)
  }

  /** A raffle has one outcome: the position and the set of winners are
      determined by the tickets and the draw order. */
  lemma OutcomeUnique(tickets: seq<Ticket>, numbers: seq<nat>, w1: seq<Ticket>, p1: nat, w2: seq<Ticket>, p2: nat)
    requires IsOutcome(tickets, numbers, w1, p1) && IsOutcome(tickets, numbers, w2, p2)
    ensures p1 == p2 && Elems(w1) == Elems(w2)
  {
    EmptyElems(w1);
    EmptyElems(w2);
  }

  /** A sequence has no values exactly when it is empty. */
  lemma EmptyElems<T>(s: seq<T>)
    ensures Elems(s) == {} <==> s == []
  {
    if s != [] {
      assert s[0] in Elems(s);
    }
  }

  /** With a real draw order and at least one playable ticket the raffle has
      winners. Every winner is playable and fully drawn, every playable
      ticket that is fully drawn at the stop wins, and no playable ticket is
      fully drawn earlier: the stop is the least, over the playable tickets,
      of the position of their last drawn number. */
  lemma RaffleStopsAtFirstFullTicket(tickets: seq<Ticket>, numbers: seq<nat>, winners: seq<Ticket>, position: nat)
    requires IsOutcome(tickets, numbers, winners, position)
    requires IsDrawOrder(numbers)
    requires forall t :: t in tickets ==> |t| == 15
    requires exists t :: t in tickets && Playable(t)
    ensures winners != [] && 0 < position
    ensures forall t :: t in winners ==> t in tickets && Playable(t) && Covered(t, numbers[..position])
    ensures forall t :: t in tickets && Playable(t) && Covered(t, numbers[..position]) ==> t in winners
    ensures forall q, t :: 0 <= q < position && t in tickets && Playable(t) ==> !Covered(t, numbers[..q])
  {
    DrawOrderShape(numbers);
    var t0 :| t0 in tickets && Playable(t0);
    assert numbers[..|numbers|] == numbers;
    PlayableWinsAtEnd(t0, numbers);
    assert t0 in Winners(tickets, numbers[..|numbers|]);
    assert numbers[..0] == [];
    EmptyElems(winners);
    forall t | t in winners
      ensures t in tickets && Playable(t) && Covered(t, numbers[..position])
    {
      assert t in Elems(winners);
      PrefixFacts(numbers, position);
      if !Playable(t) {
        NeverWins(t, numbers[..position]);
      }
      WinsIffCovered(t, numbers[..position]);
    }
    forall t | t in tickets && Playable(t) && Covered(t, numbers[..position])
      ensures t in winners
    {
      PrefixFacts(numbers, position);
      WinsIffCovered(t, numbers[..position]);
      assert t in Elems(winners);
    }
    forall q, t | 0 <= q < position && t in tickets && Playable(t)
      ensures !Covered(t, numbers[..q])
    {
      PrefixFacts(numbers, q);
      WinsIffCovered(t, numbers[..q]);
      assert t !in Winners(tickets, numbers[..q]);
    }
  }

  /** A prefix of a draw order still draws distinct numbers of 1..90. */
  lemma PrefixFacts(numbers: seq<nat>, n: nat)
    requires NoDuplicates(numbers) && InRange(numbers, 1, 91) && n <= |numbers|
    ensures NoDuplicates(numbers[..n]) && InRange(numbers[..n], 1, 91)
  {
    forall i, j | 0 <= i < j < n ensures numbers[..n][i] != numbers[..n][j] {
      assert numbers[..n][i] == numbers[i] && numbers[..n][j] == numbers[j];
    }
  }

  /** Once all 90 numbers are drawn, a playable ticket has 15 matches. */
  lemma PlayableWinsAtEnd(t: Ticket, numbers: seq<nat>)
    requires Playable(t) && IsDrawOrder(numbers)
    ensures Matches(t, numbers) == 15
  {
    DrawOrderShape(numbers);
    forall i | 0 <= i < |t| ensures t[i] in numbers {
    }
    WinsIffCovered(t, numbers);
  }

  /** One raffle of `run`: resets the counts, then draws the numbers in
      order, counting matches, until a draw produces winners. */
  method Raffle(tickets: seq<Ticket>, numbers: seq<nat>) returns (winners: seq<Ticket>, position: nat)
    ensures IsOutcome(tickets, numbers, winners, position)
  {
    var counts := ResetCounts(tickets);
    winners := [];
    position := 0;
    while position < |numbers|
      invariant position <= |numbers|
      invariant counts.Keys == Elems(tickets)
      invariant forall t :: t in counts ==> counts[t] == Matches(t, numbers[..position])
      invariant winners == []
      invariant forall q :: 0 <= q <= position ==> Winners(tickets, numbers[..q]) == {}
    {
      var drawn := numbers[position];
      assert numbers[..position + 1][..position] == numbers[..position];
      position := position + 1;
      ghost var before := counts;
      counts, winners := CountDraw(counts, drawn);
      NewWinners(tickets, numbers, position, before, winners);
      if winners != [] {
        break;
      }
    }
    assert Elems(winners) == Winners(tickets, numbers[..position]);
  }

  /** What a draw leaves: the tickets holding `drawn` that now have 15
      matches are exactly the winners of the longer prefix, since no ticket
      had 15 before. */
  lemma NewWinners(tickets: seq<Ticket>, numbers: seq<nat>, position: nat, counts: map<Ticket, nat>, winners: seq<Ticket>)
    requires 0 < position <= |numbers|
    requires Winners(tickets, numbers[..position - 1]) == {}
    requires counts.Keys == Elems(tickets)
    requires forall t :: t in counts ==> counts[t] == Matches(t, numbers[..position - 1])
    requires Elems(winners) == Completed(counts, numbers[position - 1], counts.Keys)
    ensures Elems(winners) == Winners(tickets, numbers[..position])
  {
    var before := numbers[..position - 1];
    assert numbers[..position][..position - 1] == before;
    forall t | t in tickets
      ensures t in Elems(winners) <==> Matches(t, numbers[..position]) == 15
    {
      assert t !in Winners(tickets, before);
      assert t in Elems(tickets);
    }
  }

  /** The reset before a raffle: one count per distinct ticket, all zero
      (a repeated ticket is a single key of the map). */
  method ResetCounts(tickets: seq<Ticket>) returns (counts: map<Ticket, nat>)
    ensures counts.Keys == Elems(tickets)
    ensures forall t :: t in counts ==> counts[t] == 0
  {
    counts := map[];
    for i := 0 to |tickets|
      invariant counts.Keys == Elems(tickets[..i])
      invariant forall t :: t in counts ==> counts[t] == 0
    {
      assert tickets[..i + 1] == tickets[..i] + [tickets[i]];
      counts := counts[tickets[i] := 0];
    }
    assert tickets[..|tickets|] == tickets;
  }

  /** The inner loop of a draw, over the map's entries in whatever order the
      map yields them: every ticket holding `drawn` gains a match, and is
      pushed to the winners when its count becomes exactly 15. */
  method CountDraw(counts: map<Ticket, nat>, drawn: nat) returns (after: map<Ticket, nat>, winners: seq<Ticket>)
    ensures after.Keys == counts.Keys
    ensures forall t :: t in counts ==> after[t] == counts[t] + (if drawn in t then 1 else 0)
    ensures NoDuplicates(winners)
    ensures Elems(winners) == Completed(counts, drawn, counts.Keys)
  {
    after := counts;
    winners := [];
    var todo := counts.Keys;
    while todo != {}
      invariant Counting(counts, drawn, todo, after, winners)
      decreases |todo|
    {
      var t :| t in todo;
      after, winners := CountTicket(counts, drawn, todo, after, winners, t);
      todo := todo - {t};
    }
  }

  /** Where the inner loop stands: the tickets still in `todo` keep their
      counts, the others hold `drawn` counted, and the winners are the
      visited tickets that reached 15. */
  predicate Counting(counts: map<Ticket, nat>, drawn: nat, todo: set<Ticket>, after: map<Ticket, nat>, winners: seq<Ticket>) {
    todo <= counts.Keys && after.Keys == counts.Keys &&
    (forall t :: t in todo ==> after[t] == counts[t]) &&
    (forall t :: t in counts && t !in todo ==> after[t] == counts[t] + (if drawn in t then 1 else 0)) &&
    NoDuplicates(winners) &&
    Elems(winners) == Completed(counts, drawn, counts.Keys - todo)
  }

  /** One entry of the map: count the draw, push the ticket when it
      reaches 15. */
  method CountTicket(counts: map<Ticket, nat>, drawn: nat, todo: set<Ticket>, after: map<Ticket, nat>, winners: seq<Ticket>, t: Ticket)
    returns (after': map<Ticket, nat>, winners': seq<Ticket>)
    requires Counting(counts, drawn, todo, after, winners) && t in todo
    ensures Counting(counts, drawn, todo - {t}, after', winners')
  {
    ghost var done := counts.Keys - todo;
    assert counts.Keys - (todo - {t}) == done + {t};
    CompletedAdd(counts, drawn, done, t);
    after', winners' := after, winners;
    if drawn in t {
      after' := after[t := after[t] + 1];
      if after'[t] == 15 {
        assert t !in Elems(winners);
        AppendFresh(winners, t);
        winners' := winners + [t];
      }
    }
  }

  /** The tickets among `done` that hold `drawn` and were one match short. */
  function Completed(counts: map<Ticket, nat>, drawn: nat, done: set<Ticket>): set<Ticket> {
    set t | t in done && t in counts && drawn in t && counts[t] + 1 == 15
  }

  lemma CompletedAdd(counts: map<Ticket, nat>, drawn: nat, done: set<Ticket>, t: Ticket)
    requires t in counts
    ensures Completed(counts, drawn, done + {t})
         == Completed(counts, drawn, done) + (if drawn in t && counts[t] + 1 == 15 then {t} else {})
  {
  }

  lemma AppendFresh(s: seq<Ticket>, x: Ticket)
    requires NoDuplicates(s) && x !in Elems(s)
    ensures NoDuplicates(s + [x]) && Elems(s + [x]) == Elems(s) + {x}
  {
    var sx := s + [x];
    forall i, j | 0 <= i < j < |sx| ensures sx[i] != sx[j] {
      assert sx[i] == s[i];
      if j == |s| {
        assert s[i] in Elems(s);
      }
    }
  }

  // ----- the run -----

  /** `run`: raffle r uses the draw order of seed `seed + r`. That sum is
      u8 arithmetic, which panics on overflow: the raffles before the
      overflowing one have taken place, and the run ends there. */
  method Run(config: Config, seeding: Seeding) returns (outcomes: seq<Outcome>, overflow: bool)
    ensures overflow <==> config.seed as int + config.size as int > 256
    ensures |outcomes| == if overflow then 256 - config.seed as int else config.size as int
    ensures forall r :: 0 <= r < |outcomes| ==>
      config.seed as int + r < 256 &&
      IsOutcome(config.tickets, DrawOrder(seeding, (config.seed as int + r) as Byte),
                outcomes[r].winners, outcomes[r].position)
  {
    outcomes := [];
    overflow := false;
    for raffle := 0 to config.size as int
      invariant |outcomes| == raffle && config.seed as int + raffle <= 256
      invariant forall r :: 0 <= r < raffle ==>
        config.seed as int + r < 256 &&
        IsOutcome(config.tickets, DrawOrder(seeding, (config.seed as int + r) as Byte),
                  outcomes[r].winners, outcomes[r].position)
    {
      if config.seed as int + raffle > 255 {
        overflow := true;
        return;
      }
      var numbers := GetShuffleNumbers((config.seed as int + raffle) as Byte, seeding);
      var winners, position := Raffle(config.tickets, numbers);
      outcomes := outcomes + [Outcome(winners, position)];
    }
  }
}
