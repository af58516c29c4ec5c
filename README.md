# Simulated-annealing design-space explorer, modelled in Dafny

This project models the search engine of a simulated-annealing explorer over
five integer processor parameters. The parameters are the integer-ALU, read-port
and write-port counts, and the L1 data-cache size and associativity.

The model covers these parts of `script_sa.py`:

- **Configuration model** (`configuration.dfy`).
  - A configuration and its cache key.
  - The search-space constants.
  - The cache-geometry check: the set count `(size * 1024) // (64 * assoc)` must be a positive power of two.
  - Python's `&` and `//` are written out, so the bit trick `x & (x - 1) == 0` is modelled as written. It is then proved to mean "x is 2^k".
- **Cost oracle** (`oracle.dfy`).
  - Costs are simulated seconds, with +infinity as the failure sentinel. A missing metric and a metric of exactly 0.0 both become +infinity.
  - The cost a configuration has under a given simulator.
  - The memoised lookup `run_config` over a shared cache, modelled as a class holding the key-to-cost map. It also holds a ghost log of the keys handed to the simulator.
- **Batch evaluator** (`evaluator.dfy`).
  - `run_parallel`'s two passes: resolve hits and invalid geometries, then wait for every launched run.
  - Each pass is specified by a left fold over the cache, the results, the results' iteration order and the launched candidates.
  - Lemmas state what a whole batch does.
- **Neighbour generator** (`neighbors.dfy`).
  - The structural moves, collected into a set.
  - The padding loop, the in-place shuffle and the truncation.
  - The structural proposals are proved to be exactly the one-parameter moves.
- **Annealing loop** (`annealing.dfy`).
  - The acceptance test, the choice of the next configuration, the best-so-far update and the round log.
  - The whole search over one fresh cache.

The simulator and the parse of its statistics file are one opaque function from
a configuration to optional seconds. The random draws are inputs:

- the padding samples;
- the shuffle indices;
- one Metropolis coin per result;
- the index of the chosen neighbour.

The temperature and the exponential only decide what each coin is, so they are
abstracted into the coins.

Two behaviours of the code are easy to miss:

- **Padding.** The code's padding loop retries without bound. The model stops when the sample draws run out.
- **+infinity neighbours.** The code accepts a neighbour of cost +infinity when the current cost is also +infinity: `inf - inf` is NaN, so the probability is 1.0. Such a neighbour can then be chosen even when finite neighbours exist. From a finite current cost it is never accepted, because `exp(-inf)` is 0.0. The contract of `Annealing.Accepts` states this behaviour.

## Model

| member | source | states |
|---|---|---|
| Configuration.WithCount | script_sa.py:115-116 | the copy has the new count for the chosen unit and every other parameter unchanged |
| Configuration.KeyIdentifiesConfig | script_sa.py:40-47 | two configurations have the same key exactly when they are the same point |
| Configuration.KeyOf | script_sa.py:40-47 | the key's five components give back the configuration, so no two configurations share a key |
| Configuration.BitAnd | script_sa.py:34 | the model of `&` is bounded by both operands, and its lowest bit is set exactly when both operands' lowest bits are |
| Configuration.BitTrickIff | script_sa.py:33-34 | for a positive x, `x & (x - 1) == 0` holds exactly when x is 2^k for some k |
| Configuration.IsPowerOfTwo | script_sa.py:33-34 | the test `x > 0 and x & (x - 1) == 0` holds exactly for the numbers 2^k |
| Configuration.FloorDiv | script_sa.py:37 | the model's `//` rounds the exact quotient down for either sign of the divisor, as Python's does |
| Configuration.ValidCache | script_sa.py:36-38 | a geometry is valid exactly when its set count is 2^k for some k; the `sets > 0` guard excludes nothing more |
| Configuration.ValidCacheExamples | script_sa.py:36-38 | 64 kB 4-way gives 256 sets and is valid; 64 kB 6-way gives 170 sets and is rejected |
| Configuration.AllListedGeometriesValid | script_sa.py:24-38 | every listed size combined with every listed associativity is a valid geometry |
| Oracle.CostOrder | script_sa.py:225 | the cost comparisons form one total order with +infinity on top, and `<` is the negation of the reversed `<=` |
| Oracle.Normalize | script_sa.py:97-98 | the cost is +infinity exactly when the metric is missing or 0.0; otherwise it is the metric, which is then positive |
| Oracle.CostOf | script_sa.py:85-101 | an invalid geometry costs +infinity; otherwise the cost is +infinity exactly when the simulator's metric is missing or zero, and is that metric otherwise |
| Oracle.RunConfig | script_sa.py:79-101 | a hit returns the stored cost and leaves the cache unchanged, with no launch; a miss stores exactly one entry, the configuration's cost, under its key and returns it, launching the simulator exactly when the geometry is valid; a faithful cache stays faithful |
| Evaluator.Pending | script_sa.py:159-175 | a candidate is launched exactly when it is a candidate that was uncached before the batch and has a valid geometry |
| Evaluator.PendingDistinct | script_sa.py:159-175 | distinct candidates give distinct launches |
| Evaluator.Insert | script_sa.py:163-184 | inserting a key into the results keeps their iteration order free of repetitions and adds exactly that key |
| Evaluator.ResolvedFacts | script_sa.py:159-169 | after the first pass: launches are the pending candidates; old entries are kept; new entries are invalid geometries at +infinity; every result is a candidate under its key with its cached cost; each candidate is resolved or launched; launched keys are uncached; the order lists each result once |
| Evaluator.GatheredFacts | script_sa.py:177-186 | after the second pass: each run's key holds its normalised metric in both the cache and the results; every other key is unchanged; the key sets grow by exactly the runs' keys |
| Evaluator.LaunchedKeys | script_sa.py:159-175 | the runs of a batch are candidates that are not yet cached when the second pass starts |
| Evaluator.OutcomeResults | script_sa.py:155-187 | a batch launches exactly the pending candidates; the result keys are exactly the candidates' keys; each result is the candidate with the cost cached under its key; the order lists each result once |
| Evaluator.OutcomeCache | script_sa.py:155-187 | a batch overwrites no entry cached before it, and the cache gains exactly the candidates' keys |
| Evaluator.OutcomeFaithful | script_sa.py:155-187 | if every cached cost is the configuration's cost under the simulator, this still holds after a batch |
| Evaluator.RunParallel | script_sa.py:155-187 | the new cache, the results, their order and the launches are those of the two-pass fold; each launch is logged once, in launch order |
| Evaluator.Resolve | script_sa.py:159-175 | the first loop computes the first-pass fold; the runs it starts are queued in launch order and reach the simulator, and its launch log, only when the second pass waits for them |
| Evaluator.ResolveOne | script_sa.py:160-175 | one candidate: a hit is recorded, an invalid geometry is cached and recorded as +infinity, anything else is launched |
| Evaluator.Gather | script_sa.py:177-186 | the waiting loop computes the second-pass fold over the runs, in launch order |
| Evaluator.GatherOne | script_sa.py:178-184 | one run: its normalised metric is cached and recorded under its key |
| Evaluator.Await | script_sa.py:178-183 | waiting for a run performs it: the normalised metric is stored under its key, and the launch that the source made in the first loop is logged here |
| Neighbors.IndexOf | script_sa.py:121 | the position is the first occurrence of the value in the list |
| Neighbors.IndexOfDistinct | script_sa.py:130 | in a list without repetitions, the element at position j is found at j |
| Neighbors.CollectedStep | script_sa.py:105-108 | adding one proposal adds its configuration exactly when it is present and of valid geometry |
| Neighbors.UnitAdded | script_sa.py:113-117 | a unit step adds the moved configuration exactly when the new count is in bounds and the geometry is valid |
| Neighbors.UnitSlotAdds | script_sa.py:111-117 | the step of unit i by step j adds exactly the moved configuration when it is in bounds and valid |
| Neighbors.StructuralMoveChangesOneField | script_sa.py:111-136 | a structural move changes exactly one of the five parameters |
| Neighbors.ProposalIsMove | script_sa.py:111-136 | every proposal is a ±1 unit move within bounds, or a step to the adjacent listed size or associativity |
| Neighbors.MoveIsProposed | script_sa.py:111-136 | every such move is among the proposals |
| Neighbors.ProposalsAreStructuralMoves | script_sa.py:111-136 | the proposals are exactly the structural moves |
| Neighbors.StructuralSetShape | script_sa.py:105-136 | every collected structural neighbour is a structural move with listed cache parameters and valid geometry, and differs from the origin |
| Neighbors.CollectStructural | script_sa.py:105-136 | the three structural loops build exactly the set of admissible proposals |
| Neighbors.CollectUnitMoves | script_sa.py:111-117 | the functional-unit loops add exactly the admissible unit proposals |
| Neighbors.CollectUnit | script_sa.py:112-117 | the two steps of one unit add exactly its admissible proposals |
| Neighbors.CollectSizeMoves | script_sa.py:119-127 | the size loop adds exactly the admissible size proposals |
| Neighbors.CollectAssocMoves | script_sa.py:129-136 | the associativity loop adds exactly the admissible associativity proposals |
| Neighbors.ListOf | script_sa.py:138 | the list holds exactly the set's elements, each once |
| Neighbors.Shuffle | script_sa.py:152 | the shuffled list is a permutation of the input |
| Neighbors.DistinctCounts | script_sa.py:152 | a sequence has no repetitions exactly when no element occurs twice in its multiset |
| Neighbors.DistinctPermutation | script_sa.py:152 | a permutation of a list without repetitions has none |
| Neighbors.PaddedExtends | script_sa.py:141-150 | padding keeps the list free of repetitions and its elements in place; it only grows up to the maximum and adds only samples that differ from the origin and have a valid geometry |
| Neighbors.PaddedComplete | script_sa.py:141-150 | when padding ends short of the maximum, every acceptable sample is present |
| Neighbors.Pad | script_sa.py:141-150 | the padding loop computes the padding fold |
| Neighbors.AllNeighbors | script_sa.py:103-153 | at most `max_neighbors` pairwise distinct results, each of valid geometry and different from the origin, each a structural neighbour or a sample; either every valid structural neighbour is kept or the result holds structural neighbours only, since padding appends after them and truncation cuts only a list that was not padded; a shorter result omits no structural neighbour and no acceptable sample |
| Annealing.Accepts | script_sa.py:210-214 | the acceptance test on costs is exactly the source's float test on `delta`, including the infinite and NaN differences |
| Annealing.AcceptanceBounds | script_sa.py:211-214 | a neighbour that is not worse is always accepted; an infinite one is never accepted from a finite cost; without the coin, exactly the non-worsening ones are accepted |
| Annealing.AcceptedOfMembers | script_sa.py:208-215 | a result is accepted exactly when it sits at some position of the iteration order whose test passes |
| Annealing.Choose | script_sa.py:208-224 | the accepted list is the results that pass their test, in iteration order; the next configuration is the accepted one at the drawn index, or the current one when none is accepted |
| Annealing.LaunchesStayDistinct | script_sa.py:159-175 | a batch of distinct candidates hands no key to the simulator that was launched before, or twice |
| Annealing.AcceptedAreNeighbors | script_sa.py:210-215 | every accepted result is a neighbour, with its cost under the simulator, and is not worse or has a finite cost |
| Annealing.NonWorseningAccepted | script_sa.py:210-215 | every neighbour whose cost is no worse than the current cost is accepted |
| Annealing.EvaluateNeighbors | script_sa.py:204 | every neighbour gets its result, carrying its cost under the simulator; the cache stays faithful, keeps its earlier entries, gains exactly the neighbours' keys and never runs a key twice; the simulator log grows by exactly the uncached neighbours of valid geometry, in order |
| Annealing.Round | script_sa.py:203-229 | the cache gains exactly the neighbours' keys, and the simulator log grows by exactly the uncached neighbours of valid geometry, in order; the neighbours are as AllNeighbors promises: at most `max_neighbors`, pairwise distinct, each of valid geometry, with listed cache parameters and different from the current configuration, each a structural neighbour or a padding sample, all structural neighbours kept unless the list is structural only, and, when fewer than `max_neighbors` come back, every valid structural neighbour and every acceptable padding sample present; the move is a Step: the current configuration stays only when every neighbour is strictly worse, otherwise it becomes an acceptable neighbour with its true cost; every accepted one is a neighbour with its true cost, and every non-worsening neighbour is accepted; the next configuration is the drawn accepted one or the current one; the best is replaced exactly on a strict improvement, so it never worsens; the record is the best after the update |
| Annealing.LogAppend | script_sa.py:229 | appending a record numbered next, with its true cost and no worse than the last, keeps the log well formed |
| Annealing.MovesWhenNoWorseNeighbour | script_sa.py:202-224 | when a round's neighbours came back short and some valid structural neighbour is no worse than the current cost, the round moves to a neighbour |
| Annealing.Extend | script_sa.py:202-229 | a round that moves by Step, keeps the state consistent and does not worsen the best extends both the well-formed log and the trace of the search |
| Annealing.LoggedRound | script_sa.py:202-231 | a round appends exactly one record, of the best after the round; its neighbours form the neighbourhood Round promises for the round's draws, and it moves by Step; the trace and the cache's keys grow by that round; the simulator has still run exactly the cached keys of valid geometry |
| Annealing.FirstLaunch | script_sa.py:79-101 | evaluating the start on an empty cache leaves a simulator log holding exactly the cached keys of valid geometry |
| Annealing.LaunchStep | script_sa.py:155-187 | a batch that caches all the neighbours and runs exactly the uncached ones of valid geometry keeps the simulator log equal to the cached keys of valid geometry |
| Annealing.TraceAppend | script_sa.py:201-229 | a trace of rounds extended by one more round, from the last state, is a trace |
| Annealing.HoodKeysMembers | script_sa.py:240-241 | a key is among the rounds' keys exactly when some round proposed its configuration |
| Annealing.Anneal | script_sa.py:191-243 | the search is a trace from the start: round r proposes, from the current configuration of state r and with the padding samples of its draws, a neighbourhood as Round promises, and moves by Step to state r + 1, and record r is the best of state r + 1; the result is the best of the last state, no worse than the start; the log is well formed, so the best costs never increase; the explored keys are exactly the start's and those of every proposed neighbour, each with its true cost; the simulated keys are exactly the explored keys of valid geometry, none simulated twice |

## Left out

- Launching gem5 (`subprocess.Popen`, `wait`), `build_cmd` and `outdir_for`. They are a foreign process call, a command string and a timestamped path; the simulator is an opaque function parameter.
- `parse_sim_seconds`. File I/O, a regular expression and float parsing; it is part of the opaque simulator, which yields optional non-negative seconds.
- Concurrency in `run_parallel`. The source starts every run in its first loop and waits for them in its second; the model queues the runs in the first pass and performs each one when it is waited for, one after another in launch order. Each run writes only its own key, so the final cache and results are the same.
- Floating point. Costs are exact non-negative reals or +infinity, so rounding is not modelled. The temperature `T`, its floor `1e-9`, the decay `T *= alpha` and `math.exp` are abstracted into the per-result coins.
- `print` logging, writing and flushing the round CSV, and the final dump of explored configurations. The round log is a returned sequence of records, and the dump is the returned `explored` map.
- The `__main__` block and its `random.seed(0)`. The random stream is not modelled: each round's draws are given as separate inputs rather than consumed from one generator.
- `attach_edp_csv.py`, `xml_mcpat.py` and `mcpat_anal_script.py`. They do CSV and file I/O and drive external tools; none of them has search logic.
- Neighbors.AllNeighbors: the padding draws a finite sequence of samples. When the samples run out, it returns fewer than `max_neighbors`; the source would keep drawing forever.
- Neighbors.AllNeighbors: requires the current configuration's size and associativity to be listed. The source's `list.index` raises ValueError otherwise.
- Neighbors.Shuffle: states only that the result is a permutation, not which one Fisher-Yates produces from the draws.
- Evaluator.RunParallel: requires every candidate's associativity to be non-zero. The source divides by it only for uncached candidates and raises ZeroDivisionError there.
- Oracle.RunConfig: requires a non-zero associativity for an uncached configuration, where the source raises ZeroDivisionError.
- Annealing.Choose: a result with no coin counts as rejected unless it is not worse. The choice among the accepted is the drawn index modulo their number, not `random.choice`'s own draw.
- Annealing.Anneal: requires listed cache parameters for the start when there is at least one round, standing for the ValueError of `list.index`; draws for at least `rounds` rounds must be given.
- Annealing.Anneal: `maxNeighbors` is a natural number. The source also accepts a negative `max_neighbors`; then the padding loop does not run and `neighbors[:max_neighbors]` drops that many neighbours from the end (script_sa.py:141, 153).
