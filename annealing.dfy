/**
 * The annealing search: each round generates the neighbours of the current
 * configuration, evaluates them as one batch over the shared cost cache,
 * accepts every neighbour that does not worsen the cost and, by a random
 * draw, some that do, moves to a random accepted neighbour, and logs the
 * best configuration so far.
 *
 * The random draws of a round (padding samples, shuffle indices, one
 * Metropolis coin per result, the index of the chosen neighbour) are inputs.
 * The temperature and the exponential only decide what a coin is, so they are
 * abstracted into the coins.
 */
module Annealing {
  import opened Configuration
  import opened Oracle
  import opened Evaluator
  import opened Neighbors

  // ---------------------------------------------------------------------------
  // Acceptance

  /**
   * The acceptance test of a neighbour of cost `cost` when the current cost is
   * `curr`: a neighbour that is not worse is always taken; a worse neighbour of
   * finite cost is taken when its coin comes up; a neighbour of infinite cost
   * is never taken from a finite current cost. This is exactly the source's
   * float test on the difference of the two costs.
   */
  function Accepts(cost: Cost, curr: Cost, coin: bool): (b: bool)
    ensures b <==> FloatAccepts(Sub(ToFloat(cost), ToFloat(curr)), coin)
  {
    LessEq(cost, curr) || (cost.Fin? && coin)
  }

  /** The floats that the source's costs and cost differences are. */
  datatype Float = Num(r: real) | PosInf | NegInf | NaN

  function ToFloat(c: Cost): Float {
    match c
    case Fin(s) => Num(s)
    case Inf => PosInf
  }

  /** Float subtraction `a - b`, with the infinities and NaN as the floating-point standard treats them. */
  function Sub(a: Float, b: Float): Float {
    match (a, b)
    case (NaN, _) => NaN
    case (_, NaN) => NaN
    case (PosInf, PosInf) => NaN
    case (NegInf, NegInf) => NaN
    case (PosInf, _) => PosInf
    case (NegInf, _) => NegInf
    case (_, PosInf) => NegInf
    case (_, NegInf) => PosInf
    case (Num(x), Num(y)) => Num(x - y)
  }

  /** `d < 0` and `d > 0` on floats: both are false for NaN. */
  predicate Negative(d: Float) {
    d.NegInf? || (d.Num? && d.r < 0.0)
  }

  predicate Positive(d: Float) {
    d.PosInf? || (d.Num? && d.r > 0.0)
  }

  /**
   * The source's test on the difference `delta`, read literally: accepted when
   * `delta < 0`, or when `prob > random()`. Here `prob` is 1.0 unless
   * `delta > 0`, so it beats any draw in [0, 1). For `delta = +inf` it is
   * `exp(-inf) = 0.0`, which no draw is below. Otherwise the comparison is `coin`.
   */
  predicate FloatAccepts(delta: Float, coin: bool) {
    Negative(delta) || (if !Positive(delta) then true else if delta.PosInf? then false else coin)
  }

  /** A neighbour that is not worse is accepted whatever its coin; an infinite one never is from a finite cost. */
  lemma AcceptanceBounds(cost: Cost, curr: Cost, coin: bool)
    ensures LessEq(cost, curr) ==> Accepts(cost, curr, coin)
    ensures cost.Inf? && curr.Fin? ==> !Accepts(cost, curr, coin)
    ensures Accepts(cost, curr, false) <==> LessEq(cost, curr)
  {
  }

  /** The coin for the result at position `i`; a missing coin rejects a worse neighbour. */
  function Coin(coins: seq<bool>, i: nat): bool {
    i < |coins| && coins[i]
  }

  /** The accepted results, in the iteration order of the results. */
  function AcceptedOf(results: map<Key, Evaluated>, order: seq<Key>, curr: Cost, coins: seq<bool>): seq<Evaluated>
    requires forall k :: k in order ==> k in results
  {
    if order == [] then []
    else
      var n := |order| - 1;
      var e := results[order[n]];
      AcceptedOf(results, order[..n], curr, coins) + (if Accepts(e.cost, curr, Coin(coins, n)) then [e] else [])
  }

  /** A result is accepted exactly when it sits at some position whose test passes. */
  lemma {:induction false} AcceptedOfMembers(results: map<Key, Evaluated>, order: seq<Key>, curr: Cost,
                                             coins: seq<bool>, e: Evaluated)
    requires forall k :: k in order ==> k in results
    ensures e in AcceptedOf(results, order, curr, coins)
      <==> exists i :: 0 <= i < |order| && results[order[i]] == e && Accepts(e.cost, curr, Coin(coins, i))
  {
    if order != [] {
      var n := |order| - 1;
      var init := order[..n];
      assert forall k :: k in init ==> k in order;
      AcceptedOfMembers(results, init, curr, coins, e);
      if exists i :: 0 <= i < |order| && results[order[i]] == e && Accepts(e.cost, curr, Coin(coins, i)) {
        var i :| 0 <= i < |order| && results[order[i]] == e && Accepts(e.cost, curr, Coin(coins, i));
        if i < n {
          assert init[i] == order[i];
        }
      }
      if e in AcceptedOf(results, init, curr, coins) {
        var i :| 0 <= i < |init| && results[init[i]] == e && Accepts(e.cost, curr, Coin(coins, i));
        assert order[i] == init[i];
      }
    }
  }

  /**
   * The acceptance loop and the choice of the next configuration: every
   * result passing its test is collected; the next configuration is the
   * accepted one at the drawn index, or the current one when none passed.
   */
  method Choose(results: map<Key, Evaluated>, order: seq<Key>, curr: Config, currCost: Cost,
                coins: seq<bool>, choice: nat)
    returns (accepted: seq<Evaluated>, chosen: Config, chosenCost: Cost)
    requires forall k :: k in order ==> k in results
    ensures accepted == AcceptedOf(results, order, currCost, coins)
    ensures accepted == [] ==> chosen == curr && chosenCost == currCost
    ensures accepted != [] ==> Evaluated(chosen, chosenCost) == accepted[choice % |accepted|]
  {
    accepted := [];
    var i := 0;
    while i < |order|
      invariant 0 <= i <= |order|
      invariant accepted == AcceptedOf(results, order[..i], currCost, coins)
    {
      var e := results[order[i]];
      var coin := Coin(coins, i);
      assert order[..i + 1][..i] == order[..i];
      if Accepts(e.cost, currCost, coin) {
        accepted := accepted + [e];
      }
      i := i + 1;
    }
    assert order[..|order|] == order;
    if accepted != [] {
      var e := accepted[choice % |accepted|];
      chosen, chosenCost := e.cfg, e.cost;
    } else {
      chosen, chosenCost := curr, currCost;
    }
  }

  // ---------------------------------------------------------------------------
  // Rounds

  /** The search state between rounds. */
  datatype State = State(curr: Config, currCost: Cost, best: Config, bestCost: Cost)

  /** One line of the round log. */
  datatype Record = Record(round: nat, best: Config, bestCost: Cost)

  /** The random draws one round consumes. */
  datatype Draws = Draws(samples: seq<Config>, swaps: seq<nat>, coins: seq<bool>, choice: nat)

  /** Both costs are the ones the simulator gives, and the best is no worse than the current. */
  predicate Consistent(s: State, sim: Simulator) {
    && s.curr.l1dAssoc != 0 && s.best.l1dAssoc != 0
    && s.currCost == CostOf(s.curr, sim)
    && s.bestCost == CostOf(s.best, sim)
    && LessEq(s.bestCost, s.currCost)
  }

  lemma KeysDistinct(cs: seq<Config>)
    requires Distinct(cs)
    ensures Distinct(Keys(cs))
  {
    forall i, j | 0 <= i < j < |cs|
      ensures Keys(cs)[i] != Keys(cs)[j]
    {
      KeyIdentifiesConfig(cs[i], cs[j]);
    }
  }

  lemma DistinctConcat<T>(a: seq<T>, b: seq<T>)
    requires Distinct(a) && Distinct(b)
    requires forall x :: x in b ==> x !in a
    ensures Distinct(a + b)
  {
    forall i, j | 0 <= i < j < |a + b|
      ensures (a + b)[i] != (a + b)[j]
    {
      if j < |a| {
        assert (a + b)[i] == a[i] && (a + b)[j] == a[j];
      } else if i >= |a| {
        assert (a + b)[i] == b[i - |a|] && (a + b)[j] == b[j - |a|];
      } else {
        assert (a + b)[i] == a[i] && (a + b)[j] == b[j - |a|];
        assert b[j - |a|] in b;
      }
    }
  }

  /**
   * A batch launches only candidates absent from the cache, each once, so a
   * launch log without repetitions whose keys are all cached stays so.
   */
  lemma LaunchesStayDistinct(launches: seq<Key>, entries: map<Key, Cost>, candidates: seq<Config>)
    requires Evaluable(candidates) && Distinct(candidates)
    requires Distinct(launches) && forall k :: k in launches ==> k in entries
    ensures Distinct(launches + Keys(Pending(candidates, entries)))
  {
    var ps := Pending(candidates, entries);
    PendingDistinct(candidates, entries);
    KeysDistinct(ps);
    forall k | k in Keys(ps)
      ensures k !in launches
    {
      var i :| 0 <= i < |ps| && Keys(ps)[i] == k;
      assert ps[i] in ps;
    }
    DistinctConcat(launches, Keys(ps));
  }

  /** Every accepted result is a neighbour, with the cost the simulator gives it. */
  lemma AcceptedAreNeighbors(results: map<Key, Evaluated>, order: seq<Key>, curr: Cost, coins: seq<bool>,
                             neighbors: seq<Config>, sim: Simulator)
    requires Evaluable(neighbors)
    requires forall k :: k in order ==> k in results
    requires forall k :: k in results ==>
      && results[k].cfg in neighbors && KeyOf(results[k].cfg) == k
      && results[k].cost == CostOf(results[k].cfg, sim)
    ensures forall e :: e in AcceptedOf(results, order, curr, coins) ==>
      && e.cfg in neighbors && e.cfg.l1dAssoc != 0 && e.cost == CostOf(e.cfg, sim)
      && (LessEq(e.cost, curr) || e.cost.Fin?)
  {
    forall e | e in AcceptedOf(results, order, curr, coins)
      ensures e.cfg in neighbors && e.cfg.l1dAssoc != 0 && e.cost == CostOf(e.cfg, sim)
      ensures LessEq(e.cost, curr) || e.cost.Fin?
    {
      AcceptedOfMembers(results, order, curr, coins, e);
      var i :| 0 <= i < |order| && results[order[i]] == e && Accepts(e.cost, curr, Coin(coins, i));
    }
  }

  /** Every neighbour that is not worse than the current cost is among the accepted. */
  lemma NonWorseningAccepted(results: map<Key, Evaluated>, order: seq<Key>, curr: Cost, coins: seq<bool>,
                             neighbors: seq<Config>, sim: Simulator)
    requires Evaluable(neighbors)
    requires forall k :: k in order <==> k in results
    requires results.Keys == KeySet(neighbors)
    requires forall k :: k in results ==>
      && results[k].cfg in neighbors && KeyOf(results[k].cfg) == k
      && results[k].cost == CostOf(results[k].cfg, sim)
    ensures forall n :: n in neighbors && n.l1dAssoc != 0 && LessEq(CostOf(n, sim), curr) ==>
      Evaluated(n, CostOf(n, sim)) in AcceptedOf(results, order, curr, coins)
  {
    forall n | n in neighbors && n.l1dAssoc != 0 && LessEq(CostOf(n, sim), curr)
      ensures Evaluated(n, CostOf(n, sim)) in AcceptedOf(results, order, curr, coins)
    {
      var k := KeyOf(n);
      assert k in KeySet(neighbors);
      var i :| 0 <= i < |order| && order[i] == k;
      KeyIdentifiesConfig(results[k].cfg, n);
      AcceptedOfMembers(results, order, curr, coins, Evaluated(n, CostOf(n, sim)));
      assert Accepts(CostOf(n, sim), curr, Coin(coins, i));
    }
  }

  /**
   * Evaluates a round's neighbours as one batch over a valid cache: every
   * neighbour's key gets its result, which is the neighbour with the cost the
   * simulator gives it; the cache stays valid, its earlier entries stay as
   * they were and it gains exactly the neighbours' keys; the simulator runs
   * exactly the neighbours that were uncached and of valid geometry, in
   * launch order, and no key is handed to it twice.
   */
  method EvaluateNeighbors(cache: CostCache, neighbors: seq<Config>, sim: Simulator)
    returns (results: map<Key, Evaluated>, order: seq<Key>)
    requires cache.Valid(sim) && Distinct(cache.launches)
    requires Evaluable(neighbors) && Distinct(neighbors)
    modifies cache
    ensures cache.Valid(sim) && Distinct(cache.launches)
    ensures forall k :: k in old(cache.entries) ==> k in cache.entries && cache.entries[k] == old(cache.entries)[k]
    ensures cache.entries.Keys == old(cache.entries).Keys + KeySet(neighbors)
    ensures cache.launches == old(cache.launches) + Keys(Pending(neighbors, old(cache.entries)))
    ensures results.Keys == KeySet(neighbors)
    ensures forall k :: k in results ==>
      && results[k].cfg in neighbors && KeyOf(results[k].cfg) == k
      && results[k].cost == CostOf(results[k].cfg, sim)
    ensures Distinct(order) && forall k :: k in order <==> k in results
  {
    ghost var entries0, launches0 := cache.entries, cache.launches;
    LaunchesStayDistinct(launches0, entries0, neighbors);
    var launched;
    results, order, launched := RunParallel(cache, neighbors, sim);
    OutcomeResults(entries0, neighbors, sim);
    OutcomeCache(entries0, neighbors, sim);
    OutcomeFaithful(entries0, neighbors, sim);
    forall k | k in Keys(launched)
      ensures k in cache.entries
    {
      var i :| 0 <= i < |launched| && Keys(launched)[i] == k;
      assert launched[i] in neighbors;
      assert k in KeySet(neighbors);
    }
    forall k | k in results
      ensures results[k].cost == CostOf(results[k].cfg, sim)
    {
      assert FromKey(k) == results[k].cfg;
    }
  }

  /**
   * What a round's neighbours of `cfg`, drawn with the padding samples
   * `samples`, are: at most `maxNeighbors`, pairwise distinct, each a different
   * listed point of valid geometry that is a structural neighbour or one of the
   * samples; either all valid structural neighbours are
   * among them or they are structural ones only; and when fewer than
   * `maxNeighbors` come back, every valid structural neighbour and every
   * acceptable sample is among them.
   */
  predicate Neighbourhood(cfg: Config, ns: seq<Config>, maxNeighbors: nat, samples: seq<Config>)
    requires InLists(cfg)
  {
    && |ns| <= maxNeighbors && Distinct(ns)
    && (forall n :: n in ns ==> n.l1dAssoc != 0 && Acceptable(cfg, n))
    && (forall n :: n in ns ==> n in StructuralSet(cfg) || n in samples)
    && ((forall x :: x in StructuralSet(cfg) ==> x in ns) || (forall x :: x in ns ==> x in StructuralSet(cfg)))
    && (|ns| < maxNeighbors ==> forall x :: x in StructuralSet(cfg) ==> x in ns)
    && (|ns| < maxNeighbors ==> forall x :: x in samples && Acceptable(cfg, x) ==> x in ns)
  }

  /**
   * One move of the search from `s` to `next` over the neighbours `ns`. The
   * current configuration stays only when every neighbour is strictly worse
   * (so none was surely accepted); otherwise it becomes a neighbour that the
   * acceptance test can pass, with the cost the simulator gives it. The best
   * is replaced exactly when the new current cost is strictly lower.
   */
  predicate Step(s: State, next: State, ns: seq<Config>, sim: Simulator)
    requires s.curr.l1dAssoc != 0
  {
    && (if next.curr == s.curr then
          && next.currCost == s.currCost
          && forall n :: n in ns && n.l1dAssoc != 0 ==> Less(s.currCost, CostOf(n, sim))
        else
          && next.curr in ns && next.curr.l1dAssoc != 0
          && next.currCost == CostOf(next.curr, sim)
          && Accepts(next.currCost, s.currCost, true))
    && (if Less(next.currCost, s.bestCost) then next.best == next.curr && next.bestCost == next.currCost
        else next.best == s.best && next.bestCost == s.bestCost)
  }

  /**
   * A round whose neighbourhood came back short cannot stay put when some
   * valid structural neighbour is no worse than the current cost.
   */
  lemma MovesWhenNoWorseNeighbour(s: State, next: State, ns: seq<Config>, maxNeighbors: nat,
                                  samples: seq<Config>, sim: Simulator, x: Config)
    requires InLists(s.curr) && s.curr.l1dAssoc != 0
    requires Neighbourhood(s.curr, ns, maxNeighbors, samples) && Step(s, next, ns, sim)
    requires |ns| < maxNeighbors && x in StructuralSet(s.curr) && x.l1dAssoc != 0
    requires LessEq(CostOf(x, sim), s.currCost)
    ensures next.curr != s.curr && next.curr in ns
  {
    assert x in ns;
    CostOrder(s.currCost, CostOf(x, sim), s.currCost);
  }

  /**
   * One round: the neighbours of the current configuration are evaluated as
   * one batch; the next configuration is drawn among the accepted ones (or
   * the current one is kept); the best is replaced when the new current cost
   * is strictly lower; and the round's record is the best after the update.
   */
  method Round(cache: CostCache, r: nat, s: State, maxNeighbors: nat, sim: Simulator, d: Draws)
    returns (next: State, rec: Record, neighbors: seq<Config>, accepted: seq<Evaluated>)
    requires cache.Valid(sim) && Distinct(cache.launches)
    requires Consistent(s, sim) && InLists(s.curr)
    requires forall x :: x in d.samples ==> InDomain(x)
    modifies cache
    ensures cache.Valid(sim) && Distinct(cache.launches)
    ensures forall k :: k in old(cache.entries) ==> k in cache.entries && cache.entries[k] == old(cache.entries)[k]
    ensures cache.entries.Keys == old(cache.entries).Keys + KeySet(neighbors)
    ensures Consistent(next, sim) && InLists(next.curr)
    ensures Neighbourhood(s.curr, neighbors, maxNeighbors, d.samples)
    ensures cache.launches == old(cache.launches) + Keys(Pending(neighbors, old(cache.entries)))
    ensures Step(s, next, neighbors, sim)
    ensures forall e :: e in accepted ==> e.cfg in neighbors && e.cfg.l1dAssoc != 0 && e.cost == CostOf(e.cfg, sim)
    ensures forall e :: e in accepted ==> LessEq(e.cost, s.currCost) || e.cost.Fin?
    ensures forall n :: n in neighbors && LessEq(CostOf(n, sim), s.currCost) ==> Evaluated(n, CostOf(n, sim)) in accepted
    ensures accepted == [] ==> next.curr == s.curr && next.currCost == s.currCost
    ensures accepted != [] ==> Evaluated(next.curr, next.currCost) == accepted[d.choice % |accepted|]
    ensures if Less(next.currCost, s.bestCost) then next.best == next.curr && next.bestCost == next.currCost
            else next.best == s.best && next.bestCost == s.bestCost
    ensures LessEq(next.bestCost, s.bestCost)
    ensures rec == Record(r, next.best, next.bestCost)
  {
    neighbors := AllNeighbors(s.curr, maxNeighbors, d.samples, d.swaps);
    var results, order := EvaluateNeighbors(cache, neighbors, sim);
    var chosen, chosenCost;
    accepted, chosen, chosenCost := Choose(results, order, s.curr, s.currCost, d.coins, d.choice);
    AcceptedAreNeighbors(results, order, s.currCost, d.coins, neighbors, sim);
    NonWorseningAccepted(results, order, s.currCost, d.coins, neighbors, sim);
    if accepted != [] {
      assert accepted[d.choice % |accepted|] in accepted;
    } else {
      forall n | n in neighbors && n.l1dAssoc != 0
        ensures Less(s.currCost, CostOf(n, sim))
      {
        CostOrder(s.currCost, CostOf(n, sim), s.currCost);
      }
    }

    var best, bestCost := s.best, s.bestCost;
    if Less(chosenCost, bestCost) {
      best, bestCost := chosen, chosenCost;
    }
    next := State(chosen, chosenCost, best, bestCost);
    rec := Record(r, best, bestCost);
  }

  /**
   * A log of rounds: numbered from 0 in order, each best cost the one the
   * simulator gives its configuration, and the best costs never increasing.
   */
  predicate WellFormedLog(log: seq<Record>, sim: Simulator) {
    && (forall i :: 0 <= i < |log| ==>
          log[i].round == i && log[i].best.l1dAssoc != 0 && log[i].bestCost == CostOf(log[i].best, sim))
    && (forall i, j :: 0 <= i <= j < |log| ==> LessEq(log[j].bestCost, log[i].bestCost))
  }

  /** Appending the next round's record, no worse than the last one, keeps the log well formed. */
  lemma LogAppend(log: seq<Record>, rec: Record, sim: Simulator)
    requires WellFormedLog(log, sim)
    requires rec.round == |log| && rec.best.l1dAssoc != 0 && rec.bestCost == CostOf(rec.best, sim)
    requires |log| > 0 ==> LessEq(rec.bestCost, log[|log| - 1].bestCost)
    ensures WellFormedLog(log + [rec], sim)
  {
    var log' := log + [rec];
    forall i, j | 0 <= i <= j < |log'|
      ensures LessEq(log'[j].bestCost, log'[i].bestCost)
    {
      if j == |log| && i < j {
        assert LessEq(log[|log| - 1].bestCost, log[i].bestCost);
      }
    }
  }

  /**
   * The simulator has run exactly the cached configurations of valid geometry:
   * an invalid geometry is cached without a run, and every other entry came
   * from one.
   */
  ghost predicate LaunchedExactlyValid(launches: seq<Key>, entries: map<Key, Cost>) {
    forall k :: k in launches <==> k in entries && k.4 != 0 && GeometryOk(FromKey(k))
  }

  /** Evaluating the start on an empty cache launches the simulator exactly when its geometry is valid. */
  lemma FirstLaunch(start: Config, launches: seq<Key>, entries: map<Key, Cost>)
    requires start.l1dAssoc != 0 && entries.Keys == {KeyOf(start)}
    requires launches == if GeometryOk(start) then [KeyOf(start)] else []
    ensures LaunchedExactlyValid(launches, entries)
  {
    assert FromKey(KeyOf(start)) == start;
  }

  /** A batch that runs its pending neighbours and caches all of them keeps the launch log exact. */
  lemma LaunchStep(launches: seq<Key>, entries: map<Key, Cost>, neighbors: seq<Config>, entries': map<Key, Cost>)
    requires Evaluable(neighbors)
    requires LaunchedExactlyValid(launches, entries)
    requires entries'.Keys == entries.Keys + KeySet(neighbors)
    ensures LaunchedExactlyValid(launches + Keys(Pending(neighbors, entries)), entries')
  {
    var ps := Pending(neighbors, entries);
    forall k
      ensures k in Keys(ps) <==> k in entries' && k !in entries && k.4 != 0 && GeometryOk(FromKey(k))
    {
      if k in Keys(ps) {
        var i :| 0 <= i < |ps| && Keys(ps)[i] == k;
        assert ps[i] in ps;
        assert FromKey(k) == ps[i];
        assert k in KeySet(neighbors);
      }
      if k in entries' && k !in entries && k.4 != 0 && GeometryOk(FromKey(k)) {
        var c :| c in neighbors && KeyOf(c) == k;
        assert c in ps;
        var i :| 0 <= i < |ps| && ps[i] == c;
        assert Keys(ps)[i] == k;
      }
    }
  }

  /**
   * The search so far from `start`: the state is consistent and its best is
   * no worse than the start, the log is well formed, and its last record is
   * the current best.
   */
  predicate Progress(s: State, log: seq<Record>, start: Config, sim: Simulator)
    requires start.l1dAssoc != 0
  {
    && Consistent(s, sim)
    && LessEq(s.bestCost, CostOf(start, sim))
    && WellFormedLog(log, sim)
    && (|log| > 0 ==> log[|log| - 1] == Record(|log| - 1, s.best, s.bestCost))
  }

  /** The keys of every configuration proposed in some round. */
  function HoodKeys(hoods: seq<seq<Config>>): set<Key> {
    if hoods == [] then {} else HoodKeys(hoods[..|hoods| - 1]) + KeySet(hoods[|hoods| - 1])
  }

  lemma HoodKeysSnoc(hoods: seq<seq<Config>>, ns: seq<Config>)
    ensures HoodKeys(hoods + [ns]) == HoodKeys(hoods) + KeySet(ns)
  {
    assert (hoods + [ns])[..|hoods|] == hoods;
  }

  /** A key was explored by the rounds exactly when some round proposed its configuration. */
  lemma {:induction false} HoodKeysMembers(hoods: seq<seq<Config>>, k: Key)
    ensures k in HoodKeys(hoods) <==> exists r :: 0 <= r < |hoods| && FromKey(k) in hoods[r]
  {
    if hoods != [] {
      var n := |hoods| - 1;
      var init := hoods[..n];
      HoodKeysMembers(init, k);
      assert forall r :: 0 <= r < n ==> init[r] == hoods[r];
      if k in KeySet(hoods[n]) {
        var c :| c in hoods[n] && KeyOf(c) == k;
      }
      if FromKey(k) in hoods[n] {
        assert KeyOf(FromKey(k)) == k;
      }
    }
  }

  /**
   * Round `r` of the search: from the state `s`, it proposes `ns` from the
   * current configuration with the padding samples `samples`, moves by Step to
   * `next`, and records the best after the move.
   */
  ghost predicate RoundMoves(r: nat, s: State, ns: seq<Config>, next: State, rec: Record,
                             maxNeighbors: nat, samples: seq<Config>, sim: Simulator)
  {
    && s.curr.l1dAssoc != 0 && InLists(s.curr)
    && Neighbourhood(s.curr, ns, maxNeighbors, samples)
    && Step(s, next, ns, sim)
    && rec == Record(r, next.best, next.bestCost)
  }

  /**
   * The search from `start` as a sequence of states, one list of neighbours per
   * round and the log: it begins at the start with its true cost, and round
   * `r`, drawing `draws[r]`, leads from `states[r]` to `states[r + 1]`.
   */
  ghost predicate Trace(start: Config, states: seq<State>, hoods: seq<seq<Config>>, log: seq<Record>,
                        maxNeighbors: nat, draws: seq<Draws>, sim: Simulator)
    requires start.l1dAssoc != 0
  {
    && |states| == |hoods| + 1 && |log| == |hoods| && |hoods| <= |draws|
    && states[0] == State(start, CostOf(start, sim), start, CostOf(start, sim))
    && forall r :: 0 <= r < |hoods| ==> RoundMoves(r, states[r], hoods[r], states[r + 1], log[r], maxNeighbors, draws[r].samples, sim)
  }

  /** A trace extended by one more round is a trace. */
  lemma TraceAppend(start: Config, states: seq<State>, hoods: seq<seq<Config>>, log: seq<Record>,
                    maxNeighbors: nat, draws: seq<Draws>, sim: Simulator, ns: seq<Config>, next: State, rec: Record)
    requires start.l1dAssoc != 0
    requires Trace(start, states, hoods, log, maxNeighbors, draws, sim) && |hoods| < |draws|
    requires RoundMoves(|log|, states[|states| - 1], ns, next, rec, maxNeighbors, draws[|log|].samples, sim)
    ensures Trace(start, states + [next], hoods + [ns], log + [rec], maxNeighbors, draws, sim)
  {
    var states', hoods', log' := states + [next], hoods + [ns], log + [rec];
    forall r | 0 <= r < |hoods'|
      ensures RoundMoves(r, states'[r], hoods'[r], states'[r + 1], log'[r], maxNeighbors, draws[r].samples, sim)
    {
      if r < |hoods| {
        assert states'[r] == states[r] && hoods'[r] == hoods[r] && log'[r] == log[r] && states'[r + 1] == states[r + 1];
      } else {
        assert states'[r] == states[|states| - 1] && hoods'[r] == ns && log'[r] == rec && states'[r + 1] == next;
      }
    }
  }

  /** A round that moves consistently and records a best no worse than before extends both the log and the trace. */
  lemma Extend(s: State, log: seq<Record>, start: Config, sim: Simulator, states: seq<State>,
               hoods: seq<seq<Config>>, maxNeighbors: nat, draws: seq<Draws>, ns: seq<Config>, next: State,
               rec: Record)
    requires start.l1dAssoc != 0
    requires Progress(s, log, start, sim)
    requires Trace(start, states, hoods, log, maxNeighbors, draws, sim) && states[|states| - 1] == s
    requires |hoods| < |draws| && RoundMoves(|log|, s, ns, next, rec, maxNeighbors, draws[|log|].samples, sim)
    requires Consistent(next, sim) && LessEq(next.bestCost, s.bestCost)
    ensures Progress(next, log + [rec], start, sim)
    ensures Trace(start, states + [next], hoods + [ns], log + [rec], maxNeighbors, draws, sim)
  {
    LogAppend(log, rec, sim);
    TraceAppend(start, states, hoods, log, maxNeighbors, draws, sim, ns, next, rec);
    CostOrder(next.bestCost, s.bestCost, CostOf(start, sim));
  }

  /**
   * One round of the search, with its record appended to the log: the round
   * proposes `ns` from the current configuration and moves by Step, and the
   * ghost trace and the cache's keys grow by that round.
   */
  method LoggedRound(cache: CostCache, s: State, log: seq<Record>, start: Config, maxNeighbors: nat,
                     sim: Simulator, d: Draws, ghost states: seq<State>, ghost hoods: seq<seq<Config>>,
                     ghost draws: seq<Draws>)
    returns (next: State, log': seq<Record>, ghost ns: seq<Config>)
    requires start.l1dAssoc != 0
    requires cache.Valid(sim) && Distinct(cache.launches)
    requires Progress(s, log, start, sim) && InLists(s.curr)
    requires forall x :: x in d.samples ==> InDomain(x)
    requires Trace(start, states, hoods, log, maxNeighbors, draws, sim) && states[|states| - 1] == s
    requires |hoods| < |draws| && draws[|hoods|] == d
    requires cache.entries.Keys == {KeyOf(start)} + HoodKeys(hoods)
    requires LaunchedExactlyValid(cache.launches, cache.entries)
    modifies cache
    ensures cache.Valid(sim) && Distinct(cache.launches)
    ensures LaunchedExactlyValid(cache.launches, cache.entries)
    ensures Progress(next, log', start, sim) && InLists(next.curr)
    ensures log' == log + [Record(|log|, next.best, next.bestCost)]
    ensures RoundMoves(|log|, s, ns, next, log'[|log|], maxNeighbors, d.samples, sim)
    ensures Trace(start, states + [next], hoods + [ns], log', maxNeighbors, draws, sim)
    ensures cache.entries.Keys == {KeyOf(start)} + HoodKeys(hoods + [ns])
  {
    ghost var launches0, entries0 := cache.launches, cache.entries;
    var n, rec, neighbors, _ := Round(cache, |log|, s, maxNeighbors, sim, d);
    next, ns := n, neighbors;
    log' := log + [rec];
    Extend(s, log, start, sim, states, hoods, maxNeighbors, draws, ns, next, rec);
    HoodKeysSnoc(hoods, ns);
    LaunchStep(launches0, entries0, ns, cache.entries);
  }

  /**
   * The search: the start is evaluated, then `rounds` rounds run from it over
   * one fresh cost cache, round `r` consuming `draws[r]`. The result is the
   * best configuration and its cost, the round log, and the cache's contents
   * (the explored configurations with their costs). The ghost `states` and
   * `hoods` are the states the search passes through and the neighbours each
   * round proposes; the explored keys are exactly the start's and theirs.
   */
  method Anneal(start: Config, rounds: nat, maxNeighbors: nat, sim: Simulator, draws: seq<Draws>)
    returns (best: Config, bestCost: Cost, log: seq<Record>, explored: map<Key, Cost>, ghost simulated: seq<Key>,
             ghost states: seq<State>, ghost hoods: seq<seq<Config>>)
    requires start.l1dAssoc != 0
    requires rounds > 0 ==> InLists(start)
    requires |draws| >= rounds
    requires forall r, x :: 0 <= r < |draws| && x in draws[r].samples ==> InDomain(x)
    ensures |log| == rounds && |hoods| == rounds
    ensures WellFormedLog(log, sim)
    ensures Trace(start, states, hoods, log, maxNeighbors, draws, sim)
    ensures best == states[rounds].best && bestCost == states[rounds].bestCost
    ensures rounds > 0 ==> log[rounds - 1] == Record(rounds - 1, best, bestCost)
    ensures best.l1dAssoc != 0 && bestCost == CostOf(best, sim)
    ensures LessEq(bestCost, CostOf(start, sim))
    ensures explored.Keys == {KeyOf(start)} + HoodKeys(hoods)
    ensures forall k :: k in explored ==> k.4 != 0 && explored[k] == CostOf(FromKey(k), sim)
    ensures Distinct(simulated)
    ensures forall k :: k in simulated <==> k in explored && k.4 != 0 && GeometryOk(FromKey(k))
  {
    var cache := new CostCache();
    var currCost, _ := RunConfig(cache, start, sim);
    FirstLaunch(start, cache.launches, cache.entries);
    var s := State(start, currCost, start, currCost);
    log := [];
    states, hoods := [s], [];
    var r := 0;
    while r < rounds
      invariant 0 <= r <= rounds && |log| == r
      invariant cache.Valid(sim) && Distinct(cache.launches)
      invariant Progress(s, log, start, sim) && (rounds > 0 ==> InLists(s.curr))
      invariant Trace(start, states, hoods, log, maxNeighbors, draws, sim) && states[|states| - 1] == s
      invariant cache.entries.Keys == {KeyOf(start)} + HoodKeys(hoods)
      invariant LaunchedExactlyValid(cache.launches, cache.entries)
    {
      var s', log', ns := LoggedRound(cache, s, log, start, maxNeighbors, sim, draws[r], states, hoods, draws);
      states, hoods := states + [s'], hoods + [ns];
      s, log := s', log';
      r := r + 1;
    }
    best, bestCost := s.best, s.bestCost;
    explored := cache.entries;
    simulated := cache.launches;
  }
}
