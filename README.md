# bingo — a Dafny model of the tombola ticket generator and raffle simulator

The repository builds 90-ball bingo (tombola) tickets and simulates raffles with them.
A ticket has 15 numbers in 1..90, spread over nine columns: 1..9, 10..19, …, 70..79, 80..90.
Each column gives one, two or three numbers, and the columns together give 15.

**The generators.** The ticket generator (`generator` crate) and the older generator at the repository root share one scheme:
- For every column and every size 1, 2 or 3, the combinations of that size from the column's range are listed in lexicographic order. That gives 27 buckets.
- Each bucket is shuffled with one seeded stream, in a fixed order.
- The "size configurations" are the nine-tuples over {0, 1, 2} that sum to 6, so that 9 + 6 = 15 numbers. There are 1554 of them. The list is shuffled with the same stream.
- A ticket takes the next configuration from a cycle over that list. Then, column by column, it takes the next combination from the cycle over the bucket the configuration names.
- The "max set of tickets" statistic is the sum, over the configurations, of the product of the chosen bucket sizes.

**The other two parts:**
- The simulator draws 1..90 in a seeded order. It counts matches per distinct ticket and stops after the first draw that completes a ticket.
- The `ticket` crate reads tickets from text lines. It also sums a 6 × 9 display matrix in u8 arithmetic.

**What the model proves:**
- Every bucket is a reordering of exactly the combinations it should hold, of the binomial size. The configuration list holds each of the 1554 configurations once.
- Every generated ticket is 15 strictly ascending numbers in 1..90.
- Pulling tickets moves exactly the nine bucket cursors a ticket draws from. The configuration and bucket cycles repeat with their periods.
- The statistic is positive and the same for every seed.
- The newer generator's `run` and the older one's batch `generate` produce the same first tickets. The older generator restarts its configuration cycle on every call but keeps its bucket cursors.
- A raffle's outcome is unique and is the earliest full ticket. A ticket with a repeated or out-of-range number never wins. A playable ticket wins exactly when all its numbers are drawn.
- `parse::<u32>` reads back what decimal formatting writes. A ticket printed by `show` reads back as the same ticket. Bad lines do not stop the reading.
- The matrix sums fail exactly when some u8 step overflows.

**Modules:**

| file | module | models |
|---|---|---|
| common.dfy | `Common` | `Option`, `Result`, u8, sequences seen as sets, `cycle()` |
| random.dfy | `Random` | the seeded stream and the in-place Fisher–Yates `shuffle` |
| combinatorics.dfy | `Combinatorics`, `ConfigurationCount` | column ranges, `combinations(k)`, `iproduct!`, the configuration filter and its count |
| tombola.dfy | `Tombola` | the buckets, the cursors, assembling one ticket, a run of tickets, the statistic |
| generator.dfy | `Generator` | `generator/src/lib.rs`: the `Generator` struct and `run` |
| legacy_generator.dfy | `LegacyGenerator` | `src/lib.rs`: the older `Generator` and `run` |
| simulator.dfy | `Simulator` | `simulator/src/lib.rs`: `get_shuffle_numbers` and the raffles of `run` |
| ticket_file.dfy | `TicketFile` | `ticket/src/lib.rs`: `read_tickets` and the sums of `showm` |

**The random source.** The ChaCha20 generator and the `rand` crate are library code that this model does not include:
- A `Keystream` is an arbitrary function from "values drawn so far" to the next raw value.
- A `Seeding` maps a u8 seed to its keystream.
- Every property is proved for all keystreams.

**Where the code and the documentation disagree, the model follows the code:**
- The simulator's per-raffle seed `raffle + seed` is u8 addition (simulator/src/lib.rs:80). In a debug build it panics on overflow, that is, when seed + size > 256, rather than wrapping.
- A ticket line is accepted when exactly 15 of its tokens parse as `u32`. Tokens that do not parse are dropped, not counted against the line (ticket/src/lib.rs:25-31).

## Model

| member | source | states |
|---|---|---|
| Common.Range | simulator/src/lib.rs:43 | `(lo..hi).collect()` has hi - lo elements and element i is lo + i |
| Common.CycleItem | generator/src/lib.rs:93 | item m of `into_iter().cycle()` over a non-empty list is an element of the list |
| Common.CyclePeriod | generator/src/lib.rs:128-129 | a cycle yields the same item again after exactly one period |
| Random.Rng.constructor | generator/src/lib.rs:53 | a seeded generator starts at the front of its keystream |
| Random.Rng.Below | generator/src/lib.rs:84 | a bounded draw lies below the bound, is the next stream value reduced by the bound, and consumes one value |
| Random.FisherYatesPermutes | generator/src/lib.rs:84 | every stage of the Fisher–Yates pass keeps the length and the multiset of values |
| Random.ShuffledPermutes | generator/src/lib.rs:84 | a shuffle is a permutation of its input, whatever the stream |
| Random.FisherYatesStep | generator/src/lib.rs:84 | one step of the pass is the swap of position i with the drawn position in 0..=i |
| Random.Shuffle | generator/src/lib.rs:84 | shuffling an array in place leaves the shuffle of its old contents, a permutation of them, and consumes len - 1 draws |
| Random.SwapWithDrawn | generator/src/lib.rs:84 | one step in place: the array is the old one with position i swapped with the drawn position, and one draw is consumed |
| Combinatorics.ColumnRangesPartition | generator/src/lib.rs:55-65 | the nine column ranges are non-empty, consecutive and together cover 1..90 |
| Combinatorics.CombinationsUnfold | generator/src/lib.rs:66-75 | `combinations(k)` lists the combinations holding the lowest number first, then those avoiding it (lexicographic order) |
| Combinatorics.CombinationsMembers | generator/src/lib.rs:66-75 | a sequence is in `(lo..hi).combinations(k)` iff it has k elements, is strictly ascending and lies in lo..hi |
| Combinatorics.CombinationsDistinct | generator/src/lib.rs:66-75 | no combination is listed twice |
| Combinatorics.CombinationsCount | generator/src/lib.rs:66-75 | a range of n numbers has n-choose-k combinations of size k |
| Combinatorics.BucketSizes | generator/src/lib.rs:66-75 | the bucket sizes are 9/36/84 for column 0, 10/45/120 for columns 1-7 and 11/55/165 for column 8 |
| Combinatorics.TuplesMembers | generator/src/lib.rs:102 | `iproduct!` of n factors 0..3 yields exactly the n-tuples over {0, 1, 2} |
| Combinatorics.TuplesDistinct | generator/src/lib.rs:102 | `iproduct!` yields no tuple twice |
| Combinatorics.WithSumMembers | generator/src/lib.rs:103-126 | the kept tuples are exactly those of the product whose sum is the target |
| Combinatorics.WithSumDistinct | generator/src/lib.rs:103-126 | filtering keeps the tuples distinct |
| Combinatorics.AllConfigurationsMembers | generator/src/lib.rs:101-126 | the configuration list holds exactly the nine-tuples over {0, 1, 2} summing to 6, each once |
| Combinatorics.TuplesWithSumCount | generator/src/lib.rs:101-126 | the number of n-tuples over {0, 1, 2} with sum s follows the three-neighbour recurrence |
| ConfigurationCount.ConfigurationCount | generator/src/lib.rs:101-126 | there are 1554 configurations |
| Tombola.Canonical | generator/src/lib.rs:55-75 | the collected buckets are well formed: bucket (c, k) holds ascending (k+1)-combinations of column c's range, none twice, Binomial(size of the range, k + 1) of them |
| Tombola.BucketsOkWellFormed | generator/src/lib.rs:77-99 | shuffled buckets are non-empty, have the canonical size, repeat nothing and hold ascending combinations of k + 1 numbers of their column, so the cycles never need the empty fallback |
| Tombola.ShuffledColumnsStep | generator/src/lib.rs:78-86 | shuffling columns 0..n is shuffling columns 0..n-1 and then column n-1, continuing the stream |
| Tombola.ShuffledColumnOk | generator/src/lib.rs:81-85 | each of a column's three shuffled buckets is a permutation of its canonical bucket |
| Tombola.ShuffledColumnsOk | generator/src/lib.rs:78-86 | after shuffling n columns there are n columns and each bucket is a permutation of its canonical bucket |
| Tombola.InitialOk | generator/src/lib.rs:52-127 | for every stream, the generator's buckets and configuration list are reorderings of the canonical ones |
| Tombola.InitialConfigurationsOk | generator/src/lib.rs:127 | the shuffled configuration list is a reordering of all configurations |
| Tombola.BuildColumns | generator/src/lib.rs:55-86 | building and shuffling the 27 buckets gives the columns shuffled in order from the stream, and leaves the stream after the last shuffle |
| Tombola.ShuffledColumn | generator/src/lib.rs:81-85 | a column's three buckets are shuffled one after the other |
| Tombola.ShuffledBucket | generator/src/lib.rs:66-86 | a bucket is its collected combinations shuffled, consuming size - 1 draws |
| Tombola.EnumerateConfigurations | generator/src/lib.rs:101-126 | the loop over `iproduct!` yields the configurations in product order |
| Tombola.KeepWithSum | generator/src/lib.rs:103-126 | the loop pushes exactly the tuples with the wanted sum, in order |
| Tombola.BuildConfigurations | generator/src/lib.rs:101-127 | the configuration list is all configurations shuffled with the stream where the buckets left it, and the stream moves on by that shuffle's 1553 draws |
| Tombola.ConfigsOkFacts | generator/src/lib.rs:127 | a shuffled configuration list has 1554 distinct entries, exactly the configurations |
| Tombola.ConfigsOkMembers | generator/src/lib.rs:127 | a shuffled configuration list holds each configuration once |
| Tombola.Pick | generator/src/lib.rs:163 | the next item of a bucket's cycle is one of its combinations |
| Tombola.PickShape | generator/src/lib.rs:163 | what a bucket's cycle yields has k + 1 ascending numbers of its column |
| Tombola.AssembleLength | generator/src/lib.rs:160-169 | columns 0..n fill n plus their size classes slots |
| Tombola.AssembleShape | generator/src/lib.rs:160-169 | the slots of columns 0..n are strictly ascending and lie in 1..(end of column n - 1) |
| Tombola.AssembledTicket | generator/src/lib.rs:154-172 | a ticket put together from any configuration is 15 strictly ascending, distinct numbers in 1..90 |
| Tombola.AssemblePrefix | generator/src/lib.rs:160-169 | filling fewer columns gives a prefix of the ticket |
| Tombola.AssembleColumn | generator/src/lib.rs:162-168 | column c's slots hold exactly the combination its bucket yielded |
| Tombola.AdvanceUpTo | generator/src/lib.rs:162-163 | moving cursors keeps the 9 × 3 shape |
| Tombola.AdvanceUpToEffect | generator/src/lib.rs:162-163 | after columns 0..n, bucket (c, k) has moved by one iff c < n and the configuration picks k |
| Tombola.AdvanceEffect | generator/src/lib.rs:162-163 | one ticket moves exactly the nine cursors it draws from, each by one |
| Tombola.FillTicket | generator/src/lib.rs:160-170 | the fill loop yields the assembled ticket, a valid ticket, and the advanced cursors |
| Tombola.FillColumn | generator/src/lib.rs:162-168 | one column pass appends that column's combination, leaves the later slots as they were and moves only its bucket's cursor |
| Tombola.CopyCombination | generator/src/lib.rs:164-167 | the inner loop writes the numbers after the filled slots, leaves every other slot as it was and returns the next free slot |
| Tombola.InitialFacts | generator/src/lib.rs:52-135 | a fresh generator's buckets and configurations are well formed for every stream |
| Tombola.FirstTicketsAreTickets | generator/src/lib.rs:175-188 | every ticket of a generator's first run is a valid ticket, for every seed |
| Tombola.ConfigAt | generator/src/lib.rs:156-159 | item m of the configuration cycle is a configuration of the list |
| Tombola.CursorsAfter | generator/src/lib.rs:154-172 | the cursors after n tickets keep the 9 × 3 shape |
| Tombola.CursorsAfterUses | generator/src/lib.rs:163 | each bucket's cursor counts the earlier tickets that drew from that bucket |
| Tombola.ColumnInRange | generator/src/lib.rs:156-169 | the slots column c fills in any ticket of a run hold only numbers of column c's range |
| Tombola.TicketColumn | generator/src/lib.rs:156-169 | column c of ticket i is item m of bucket (c, k)'s cycle, where k comes from the ticket's configuration and m counts the earlier draws from that bucket |
| Tombola.PickAfter | generator/src/lib.rs:163 | after n tickets, a bucket yields its item number (start plus uses) |
| Tombola.CursorsAfterSplit | generator/src/lib.rs:154-172 | a run of a + b tickets is a run of a followed by a run of b from where it stopped |
| Tombola.TicketAtSplit | generator/src/lib.rs:154-172 | ticket a + j of a run is ticket j of the continued run |
| Tombola.ZeroCursors | generator/src/lib.rs:88-99 | fresh cycles have yielded nothing |
| Tombola.BatchSnoc | generator/src/lib.rs:181-188 | one more pull appends the ticket the earlier pulls lead to |
| Tombola.BatchTickets | generator/src/lib.rs:181-188 | a run of n pulls has n tickets, each valid |
| Tombola.ConfigPeriod | generator/src/lib.rs:128-129 | pulls m and m + 1554 use the same configuration |
| Tombola.MaxTickets | generator/src/lib.rs:138-146 | the statistic's loops compute the sum over the configurations of the product of the chosen bucket sizes |
| Tombola.EstimateAppend | generator/src/lib.rs:138-146 | the statistic of two lists is the sum of their statistics |
| Tombola.EstimatePermutation | generator/src/lib.rs:138-146 | reordering the configurations does not change the statistic |
| Tombola.EstimateRemove | generator/src/lib.rs:138-146 | the statistic is that of the list without one entry plus that entry's product |
| Tombola.ProductSizes | generator/src/lib.rs:141-144 | a configuration's product depends only on bucket sizes, which shuffling keeps, and is positive |
| Tombola.EstimateSizes | generator/src/lib.rs:138-146 | shuffled buckets give the same statistic as the canonical ones, positive for a non-empty list |
| Tombola.EstimateIndependent | generator/src/lib.rs:138-148 | the statistic is positive and the same for every seed |
| Tombola.AllConfigurationsAreConfigurations | generator/src/lib.rs:101-126 | every kept tuple is a configuration |
| Generator.Generator.New | generator/src/lib.rs:52-136 | a new generator holds the buckets and configurations its seed's stream gives, with every cycle at its start |
| Generator.Generator.FromShuffled | generator/src/lib.rs:130-135 | the struct literal keeps the shuffled data and starts all cursors at zero |
| Generator.Generator.ShowStats | generator/src/lib.rs:138-148 | the statistic, equal to the canonical one and positive |
| Generator.Generator.Next | generator/src/lib.rs:154-172 | a pull returns the ticket assembled from the next configuration, a valid ticket, and advances exactly those cursors plus the configuration cursor |
| Generator.Run | generator/src/lib.rs:175-190 | `run` reports the statistic only when verbose and prints the first `size` tickets of the seed's run |
| Generator.Pull | generator/src/lib.rs:181-188 | `size` pulls from a fresh generator give the first `size` tickets of the run and leave the configuration cursor at `size` and every bucket cursor at its count of uses |
| Generator.PullOne | generator/src/lib.rs:181-188 | each pull extends the run by its next ticket |
| LegacyGenerator.Generator.New | src/lib.rs:26-46 | the older generator holds the same buckets and configurations as the newer one for the same seed |
| LegacyGenerator.Generator.FromShuffled | src/lib.rs:45 | the struct literal keeps the shuffled data and starts every bucket cursor at zero |
| LegacyGenerator.Generator.ShowStats | src/lib.rs:47-57 | the statistic, equal to the canonical one and positive |
| LegacyGenerator.Generator.Generate | src/lib.rs:59-77 | a call makes `size` tickets with a configuration cycle started afresh, continuing the bucket cursors from the previous call |
| LegacyGenerator.Generator.GenerateOne | src/lib.rs:62-74 | one pass takes configuration item i of the local cycle and appends the next ticket of the run |
| LegacyGenerator.Run | src/lib.rs:90-96 | the older `run` shows the statistic and produces the same tickets as the newer generator's `run` |
| LegacyGenerator.SecondCallCursors | src/lib.rs:59-77 | after a first call of n tickets, a second call's cursor of bucket (c, k) counts the uses of configuration items 0..n and then 0..j again |
| LegacyGenerator.ContinuedRunCursors | src/lib.rs:59-77 | a single run of n + j tickets counts the uses of items 0..n and then n..n + j instead |
| Simulator.GetShuffleNumbers | simulator/src/lib.rs:41-59 | the raffle numbers are 1..90 shuffled with the seed's stream, each number once |
| Simulator.DrawOrderFacts | simulator/src/lib.rs:41-49 | for every seed, the draw order holds 90 distinct numbers, all in 1..90 |
| Simulator.DrawOrderShape | simulator/src/lib.rs:43-44 | a permutation of 1..90 has 90 distinct elements and contains exactly the numbers 1..90 |
| Simulator.MatchesShared | simulator/src/lib.rs:93-98 | with distinct draws, a ticket's count is the number of distinct values it shares with the draws |
| Simulator.NeverWins | simulator/src/lib.rs:96-103 | a ticket with a repeated number or a number outside 1..90 never reaches 15 |
| Simulator.WinsIffCovered | simulator/src/lib.rs:96-103 | a playable ticket reaches 15 exactly when all its numbers have been drawn |
| Simulator.PlayableWinsAtEnd | simulator/src/lib.rs:93-103 | after all 90 draws every playable ticket has 15 matches |
| Simulator.OutcomeUnique | simulator/src/lib.rs:92-111 | the draw count and the set of winners of a raffle are determined by the tickets and the draw order |
| Simulator.RaffleStopsAtFirstFullTicket | simulator/src/lib.rs:92-111 | with a playable ticket there are winners; they are the playable tickets completed at the stop, and none was complete earlier |
| Simulator.Raffle | simulator/src/lib.rs:82-111 | a raffle stops after the first draw that completes a ticket, or after all draws; its winners are the distinct completed tickets, each once |
| Simulator.NewWinners | simulator/src/lib.rs:93-110 | the tickets pushed in a draw are exactly those complete after it, since none was complete before |
| Simulator.ResetCounts | simulator/src/lib.rs:82-86 | the reset leaves one zero count per distinct ticket |
| Simulator.CountDraw | simulator/src/lib.rs:96-105 | a draw adds one to the count of every ticket holding the number and pushes, once each, exactly the tickets whose count becomes 15 |
| Simulator.Run | simulator/src/lib.rs:70-126 | raffle r uses seed + r; the run stops with a panic exactly when seed + size > 256, after 256 - seed raffles |
| TicketFile.Word | ticket/src/lib.rs:26 | a token is the longest whitespace-free prefix |
| TicketFile.Tokens | ticket/src/lib.rs:26 | `split_whitespace` yields non-empty tokens without whitespace; TokensSkipSpaces and TokensOfWord pin down which |
| TicketFile.TokensOfWord | ticket/src/lib.rs:26 | a whitespace-free word followed by whitespace or the end is the next token, and the remaining tokens are those of the rest |
| TicketFile.TokensSkipSpaces | ticket/src/lib.rs:26 | leading whitespace yields no token |
| TicketFile.ParseU32 | ticket/src/lib.rs:27 | a parsed `u32` is at most 4294967295 |
| TicketFile.DecimalValueOfDecimal | ticket/src/lib.rs:27 | reading a number's decimal text gives the number |
| TicketFile.ParseDecimal | ticket/src/lib.rs:27 | every `u32` written in decimal parses back to itself |
| TicketFile.ParseRejects | ticket/src/lib.rs:27 | a sign alone, a negative number and a value above `u32::MAX` do not parse |
| TicketFile.Parsed | ticket/src/lib.rs:25-28 | `filter_map(parse)` yields at most one value per token, each a `u32` |
| TicketFile.ParsedAppend | ticket/src/lib.rs:25-28 | the parse of a token list is the parse of its parts, in order |
| TicketFile.TokensOfCell | ticket/src/lib.rs:64 | a width-2 cell followed by whitespace yields the number's decimal text as a token |
| TicketFile.TokensOfShowLine | ticket/src/lib.rs:62-83 | the tokens of a line printed by `show` are the decimal texts of its numbers |
| TicketFile.ParsedDecimals | ticket/src/lib.rs:25-28 | decimal texts of `u32` values parse back to those values |
| TicketFile.ReadShownTicket | ticket/src/lib.rs:25-33 | a ticket printed by `show` is read back as a ticket line with the same 15 numbers |
| TicketFile.AcceptedAppend | ticket/src/lib.rs:20-46 | a bad line does not stop the reading: the tickets of a file are those of its first part followed by those of the rest |
| TicketFile.AcceptedMembers | ticket/src/lib.rs:20-46 | the tickets are exactly the numbers of the lines that were read and hold 15 parsable tokens, each with 15 values |
| TicketFile.ReadTickets | ticket/src/lib.rs:14-60 | the result is None iff the file cannot be opened or no line yields a ticket, and otherwise the tickets in line order |
| TicketFile.ShowMatrix | ticket/src/lib.rs:85-116 | the sums fail iff a cell holds 255 or a row or column adds up past 255; otherwise each row and column sum is the sum of n + 1 over its numbers |
| TicketFile.SumRow | ticket/src/lib.rs:89-109 | one row adds n + 1 per number to the row sum and to its column's sum, failing only on a real u8 overflow |

## Left out

- Random.Rng.Below: a bounded draw is modelled as the next raw stream value reduced by the bound, one value per draw. The `rand` crate's unbiased range sampling, which may consume more values, and the ChaCha20 keystream itself are not modelled. The shuffle follows rand 0.8's downward pass; rand 0.9's upward pass with grouped draws is not modelled. Every property holds for any keystream.
- Printing is not modelled: `println!`, `eprintln!`, the colours and layout of `showm`, and the thousands separator of the statistic. `ticket::show` appears only as the text format `ShowLine` used in the read-back property.
- File I/O is not modelled: opening the file and `BufRead::lines`. `read_tickets` takes the file as an optional list of optional lines: None for a file that cannot be opened, and None for a line that cannot be read.
- The command-line front ends are not part of this model: `Config::build` (src/lib.rs:81-87) and the three `main.rs` files with their argument parsing and defaults.
- Several fallbacks are unreachable, and the model omits them. The model proves that the lists they guard are never empty.
  - generator/src/lib.rs:94-97: the empty-bucket cycle.
  - generator/src/lib.rs:158: `None` from a cycle.
  - generator/src/lib.rs:184-187: the error branch of `run`.
  - simulator/src/lib.rs:50-57: the `try_into` fallback.
  - ticket/src/lib.rs:34-37: the `try_into` warning.
- Simulator.Raffle: the order of the winners follows the `HashMap`'s iteration order, which Rust leaves unspecified. The model visits the map keys in an arbitrary order and states the winners as a set without repetition, not their order.
- Simulator.Run: the `raffle + seed` overflow is modelled with debug-build semantics, as a panic that ends the run. The wrap-around of a release build is not modelled.
- TicketFile.ShowMatrix: in a debug build an overflow panics, and the model gives None. The release-build wrap-around of the u8 sums is not modelled, nor are the rows printed before the panic.
- Integer widths: `usize` and `u32` are unbounded in the model.
  - Generator.Generator.ShowStats: the statistic is about 6.08 × 10^15, and a single configuration's product is about 9.1 × 10^12. Both fit a 64-bit `usize`. On a target with a 32-bit `usize`, `mult *= …` and `sum += …` in `show_stats` overflow (generator/src/lib.rs:143,145 and src/lib.rs:52,54): a debug build panics and a release build prints a wrapped number. The model does not capture that.
  - The draw position and the match counts stay far below those limits.
  - Ticket numbers read from a file are bounded by the `u32` parse.
