/**
 * The batch evaluator: resolves a batch of candidates against the shared
 * cost cache, launches one simulator run for every candidate that is neither
 * cached nor of invalid geometry, and waits for all of them before returning.
 * The runs are concurrent in the source; each writes only its own key, so the
 * model performs them one after another in launch order.
 *
 * Each of the two passes is specified by a left fold over a `Batch` (the
 * cache, the results, their iteration order and the launched candidates);
 * the lemmas state what a whole batch does to the cache and the results.
 */
module Evaluator {
  import opened Configuration
  import opened Oracle

  /** No candidate has an associativity that would divide by zero in the geometry check. */
  predicate Evaluable(candidates: seq<Config>) {
    forall c :: c in candidates ==> c.l1dAssoc != 0
  }

  /** The candidates that need a simulator run: uncached before the batch and of valid geometry, in order. */
  function Pending(candidates: seq<Config>, cached: map<Key, Cost>): (ps: seq<Config>)
    requires Evaluable(candidates)
    ensures forall c :: c in ps <==> c in candidates && KeyOf(c) !in cached && GeometryOk(c)
  {
    if candidates == [] then []
    else
      var last := candidates[|candidates| - 1];
      Pending(candidates[..|candidates| - 1], cached)
        + (if KeyOf(last) !in cached && GeometryOk(last) then [last] else [])
  }

  /** Distinct candidates are launched at most once each. */
  lemma {:induction false} PendingDistinct(candidates: seq<Config>, cached: map<Key, Cost>)
    requires Evaluable(candidates)
    requires Distinct(candidates)
    ensures Distinct(Pending(candidates, cached))
  {
    if candidates != [] {
      var init := candidates[..|candidates| - 1];
      assert forall c :: c in init ==> c in candidates;
      PendingDistinct(init, cached);
    }
  }

  /** The keys of a sequence of configurations, as a set. */
  function KeySet(cs: seq<Config>): set<Key> {
    set c | c in cs :: KeyOf(c)
  }

  lemma KeySetSnoc(cs: seq<Config>, c: Config)
    ensures KeySet(cs + [c]) == KeySet(cs) + {KeyOf(c)}
  {
    assert forall x :: x in cs + [c] <==> x in cs || x == c;
  }

  /** Adds `key` to the iteration order of a results map unless it is there already. */
  function Insert(order: seq<Key>, key: Key): (r: seq<Key>)
    ensures Distinct(order) ==> Distinct(r)
    ensures forall k :: k in r <==> k in order || k == key
  {
    if key in order then order else order + [key]
  }

  /** The dictionaries a batch fills, and the candidates it has launched. */
  datatype Batch = Batch(entries: map<Key, Cost>, results: map<Key, Evaluated>, order: seq<Key>, launched: seq<Config>)

  // ---------------------------------------------------------------------------
  // First pass

  /**
   * The first pass on one candidate: a cache hit is recorded as a result; an
   * invalid geometry is cached and recorded as +infinity; anything else is launched.
   */
  function ResolveStep(b: Batch, cfg: Config): Batch
    requires cfg.l1dAssoc != 0
  {
    var key := KeyOf(cfg);
    if key in b.entries then
      b.(results := b.results[key := Evaluated(cfg, b.entries[key])], order := Insert(b.order, key))
    else if !ValidCache(cfg.l1dSize, cfg.l1dAssoc) then
      Batch(b.entries[key := Inf], b.results[key := Evaluated(cfg, Inf)], Insert(b.order, key), b.launched)
    else
      b.(launched := b.launched + [cfg])
  }

  /** The first pass over the candidates, starting from the cache `entries` and no results. */
  function Resolved(entries: map<Key, Cost>, candidates: seq<Config>): Batch
    requires Evaluable(candidates)
  {
    if candidates == [] then Batch(entries, map[], [], [])
    else ResolveStep(Resolved(entries, candidates[..|candidates| - 1]), candidates[|candidates| - 1])
  }

  lemma ResolvedPrefix(entries: map<Key, Cost>, cs: seq<Config>, i: nat)
    requires Evaluable(cs) && i < |cs|
    ensures Evaluable(cs[..i]) && Evaluable(cs[..i + 1])
    ensures Resolved(entries, cs[..i + 1]) == ResolveStep(Resolved(entries, cs[..i]), cs[i])
  {
    assert cs[..i + 1][..i] == cs[..i];
  }

  /** The first pass leaves the entries cached before the batch as they were. */
  ghost predicate KeepsCached(e0: map<Key, Cost>, r: Batch) {
    forall k :: k in e0 ==> k in r.entries && r.entries[k] == e0[k]
  }

  /** The first pass caches only invalid geometries, as +infinity, each with its result. */
  ghost predicate CachesOnlyInvalid(e0: map<Key, Cost>, r: Batch) {
    forall k :: k in r.entries && k !in e0 ==>
      k.4 != 0 && !GeometryOk(FromKey(k)) && r.entries[k] == Inf && k in r.results
  }

  /** Every result is a candidate, under its own key, with the cost cached for it. */
  ghost predicate ResultsMatch(cs: seq<Config>, r: Batch) {
    forall k :: k in r.results ==>
      && r.results[k].cfg in cs && KeyOf(r.results[k].cfg) == k
      && k in r.entries && r.results[k].cost == r.entries[k]
  }

  /** Every candidate is resolved or launched, and launched ones are of valid geometry and uncached. */
  ghost predicate Covers(cs: seq<Config>, r: Batch) {
    && (forall c :: c in cs ==> KeyOf(c) in r.results || c in r.launched)
    && (forall c :: c in r.launched ==> c.l1dAssoc != 0 && GeometryOk(c) && KeyOf(c) !in r.entries)
  }

  /** The iteration order lists every result exactly once. */
  ghost predicate Lists(r: Batch) {
    Distinct(r.order) && forall k :: k in r.order <==> k in r.results
  }

  /** The bookkeeping of the first pass over `cs`, started from the cache `e0`. */
  ghost predicate ResolvedInvariant(e0: map<Key, Cost>, cs: seq<Config>, r: Batch)
    requires Evaluable(cs)
  {
    && r.launched == Pending(cs, e0)
    && KeepsCached(e0, r) && CachesOnlyInvalid(e0, r) && ResultsMatch(cs, r) && Covers(cs, r) && Lists(r)
  }

  lemma StepKeepsCached(e0: map<Key, Cost>, r: Batch, c: Config)
    requires c.l1dAssoc != 0 && KeepsCached(e0, r)
    ensures KeepsCached(e0, ResolveStep(r, c))
  {
  }

  lemma StepCachesOnlyInvalid(e0: map<Key, Cost>, r: Batch, c: Config)
    requires c.l1dAssoc != 0 && CachesOnlyInvalid(e0, r)
    ensures CachesOnlyInvalid(e0, ResolveStep(r, c))
  {
    assert FromKey(KeyOf(c)) == c;
  }

  lemma StepResultsMatch(cs: seq<Config>, r: Batch, c: Config)
    requires c.l1dAssoc != 0 && ResultsMatch(cs, r)
    ensures ResultsMatch(cs + [c], ResolveStep(r, c))
  {
    assert forall x :: x in cs ==> x in cs + [c];
    assert c in cs + [c];
  }

  lemma StepCovers(cs: seq<Config>, r: Batch, c: Config)
    requires c.l1dAssoc != 0 && Covers(cs, r)
    ensures Covers(cs + [c], ResolveStep(r, c))
  {
    assert forall x :: x in cs + [c] <==> x in cs || x == c;
    var key := KeyOf(c);
    if key !in r.entries && !ValidCache(c.l1dSize, c.l1dAssoc) {
      forall x | x in r.launched
        ensures KeyOf(x) != key
      {
        KeyIdentifiesConfig(x, c);
      }
    }
  }

  lemma StepLists(r: Batch, c: Config)
    requires c.l1dAssoc != 0 && Lists(r)
    ensures Lists(ResolveStep(r, c))
  {
  }

  lemma ResolveStepKeeps(e0: map<Key, Cost>, cs: seq<Config>, c: Config, r: Batch)
    requires Evaluable(cs + [c])
    requires ResolvedInvariant(e0, cs, r)
    ensures ResolvedInvariant(e0, cs + [c], ResolveStep(r, c))
  {
    assert (cs + [c])[..|cs|] == cs;
    var key := KeyOf(c);
    if key in r.entries && key !in e0 {
      assert !GeometryOk(FromKey(key));
    }
    StepKeepsCached(e0, r, c);
    StepCachesOnlyInvalid(e0, r, c);
    StepResultsMatch(cs, r, c);
    StepCovers(cs, r, c);
    StepLists(r, c);
  }

  /**
   * After the first pass: exactly the pending candidates are launched; the
   * cache keeps its entries and gains +infinity for invalid geometries only;
   * every other candidate has its result, whose cost is the cached one.
   */
  lemma {:induction false} ResolvedFacts(e0: map<Key, Cost>, cs: seq<Config>)
    requires Evaluable(cs)
    ensures ResolvedInvariant(e0, cs, Resolved(e0, cs))
  {
    if cs != [] {
      var init, c := cs[..|cs| - 1], cs[|cs| - 1];
      assert cs == init + [c];
      ResolvedFacts(e0, init);
      ResolveStepKeeps(e0, init, c, Resolved(e0, init));
    }
  }

  // ---------------------------------------------------------------------------
  // Second pass

  /** The second pass on one launched candidate: its normalised metric is cached and recorded. */
  function GatherStep(b: Batch, cfg: Config, sim: Simulator): Batch {
    var key, cost := KeyOf(cfg), Normalize(sim(cfg));
    b.(entries := b.entries[key := cost], results := b.results[key := Evaluated(cfg, cost)],
       order := Insert(b.order, key))
  }

  /** The second pass over the runs `ls`, in launch order. */
  function Gathered(b: Batch, ls: seq<Config>, sim: Simulator): Batch {
    if ls == [] then b
    else GatherStep(Gathered(b, ls[..|ls| - 1], sim), ls[|ls| - 1], sim)
  }

  lemma GatheredPrefix(b: Batch, ls: seq<Config>, j: nat, sim: Simulator)
    requires j < |ls|
    ensures Gathered(b, ls[..j + 1], sim) == GatherStep(Gathered(b, ls[..j], sim), ls[j], sim)
  {
    assert ls[..j + 1][..j] == ls[..j];
  }

  /** After the second pass over `ls`, the cache and the results hold exactly the old keys and those of `ls`. */
  ghost predicate GainsKeys(b: Batch, ls: seq<Config>, g: Batch) {
    && (forall k :: k in g.entries <==> k in b.entries || k in KeySet(ls))
    && (forall k :: k in g.results <==> k in b.results || k in KeySet(ls))
  }

  /** The second pass over `ls` leaves every key outside `ls` as it was. */
  ghost predicate KeepsOthers(b: Batch, ls: seq<Config>, g: Batch) {
    && (forall k :: k in b.entries && k !in KeySet(ls) ==> k in g.entries && g.entries[k] == b.entries[k])
    && (forall k :: k in b.results && k !in KeySet(ls) ==> k in g.results && g.results[k] == b.results[k])
  }

  /** Each run of `ls` has its normalised metric cached and recorded under its key. */
  ghost predicate Stores(ls: seq<Config>, sim: Simulator, g: Batch) {
    forall c :: c in ls ==>
      && KeyOf(c) in g.entries && g.entries[KeyOf(c)] == Normalize(sim(c))
      && KeyOf(c) in g.results && g.results[KeyOf(c)] == Evaluated(c, Normalize(sim(c)))
  }

  /** What the second pass over `ls` did to `b`, giving `g`. */
  ghost predicate GatheredInvariant(b: Batch, ls: seq<Config>, sim: Simulator, g: Batch) {
    && g.launched == b.launched
    && GainsKeys(b, ls, g) && KeepsOthers(b, ls, g) && Stores(ls, sim, g)
    && (Lists(b) ==> Lists(g))
  }

  lemma StepGainsKeys(b: Batch, ls: seq<Config>, c: Config, sim: Simulator, g: Batch)
    requires GainsKeys(b, ls, g)
    ensures GainsKeys(b, ls + [c], GatherStep(g, c, sim))
  {
    KeySetSnoc(ls, c);
  }

  lemma StepKeepsOthers(b: Batch, ls: seq<Config>, c: Config, sim: Simulator, g: Batch)
    requires GainsKeys(b, ls, g) && KeepsOthers(b, ls, g)
    ensures KeepsOthers(b, ls + [c], GatherStep(g, c, sim))
  {
    KeySetSnoc(ls, c);
  }

  lemma StepStores(ls: seq<Config>, c: Config, sim: Simulator, g: Batch)
    requires Stores(ls, sim, g)
    ensures Stores(ls + [c], sim, GatherStep(g, c, sim))
  {
    assert forall x :: x in ls + [c] <==> x in ls || x == c;
    forall x | x in ls && KeyOf(x) == KeyOf(c)
      ensures x == c
    {
      KeyIdentifiesConfig(x, c);
    }
  }

  lemma GatherStepKeeps(b: Batch, ls: seq<Config>, c: Config, sim: Simulator, g: Batch)
    requires GatheredInvariant(b, ls, sim, g)
    ensures GatheredInvariant(b, ls + [c], sim, GatherStep(g, c, sim))
  {
    StepGainsKeys(b, ls, c, sim, g);
    StepKeepsOthers(b, ls, c, sim, g);
    StepStores(ls, c, sim, g);
  }

  /**
   * After the second pass: each run's key holds its normalised metric in the
   * cache and its result; every other key is as it was.
   */
  lemma {:induction false} GatheredFacts(b: Batch, ls: seq<Config>, sim: Simulator)
    ensures GatheredInvariant(b, ls, sim, Gathered(b, ls, sim))
  {
    if ls == [] {
      assert KeySet(ls) == {};
    } else {
      var init, c := ls[..|ls| - 1], ls[|ls| - 1];
      assert ls == init + [c];
      GatheredFacts(b, init, sim);
      GatherStepKeeps(b, init, c, sim, Gathered(b, init, sim));
    }
  }

  // ---------------------------------------------------------------------------
  // The whole batch

  /** A batch: the first pass over the candidates, then the second over what it launched. */
  function Outcome(entries: map<Key, Cost>, candidates: seq<Config>, sim: Simulator): Batch
    requires Evaluable(candidates)
  {
    var r := Resolved(entries, candidates);
    Gathered(r, r.launched, sim)
  }

  /** The runs of a batch are of candidates that were not cached when the second pass began. */
  lemma LaunchedKeys(e0: map<Key, Cost>, cs: seq<Config>)
    requires Evaluable(cs)
    ensures var r := Resolved(e0, cs);
      forall k :: k in KeySet(r.launched) ==> k !in r.entries && k in KeySet(cs)
  {
    var r := Resolved(e0, cs);
    ResolvedFacts(e0, cs);
    forall k | k in KeySet(r.launched)
      ensures k !in r.entries && k in KeySet(cs)
    {
      var c :| c in r.launched && KeyOf(c) == k;
    }
  }

  /**
   * The results of a batch: exactly the pending candidates are launched; the
   * results hold exactly the candidates' keys, each with the candidate and
   * the cost cached for it; the iteration order lists every result once.
   */
  lemma OutcomeResults(e0: map<Key, Cost>, cs: seq<Config>, sim: Simulator)
    requires Evaluable(cs)
    ensures var o := Outcome(e0, cs, sim);
      && o.launched == Pending(cs, e0)
      && o.results.Keys == KeySet(cs)
      && (forall k :: k in o.results ==>
            && o.results[k].cfg in cs && KeyOf(o.results[k].cfg) == k
            && k in o.entries && o.results[k].cost == o.entries[k])
      && Lists(o)
  {
    var r := Resolved(e0, cs);
    ResolvedFacts(e0, cs);
    GatheredFacts(r, r.launched, sim);
    LaunchedKeys(e0, cs);
    var o := Outcome(e0, cs, sim);
    var ls := r.launched;
    forall k | k in o.results
      ensures o.results[k].cfg in cs && KeyOf(o.results[k].cfg) == k
      ensures k in o.entries && o.results[k].cost == o.entries[k]
    {
      if k in KeySet(ls) {
        var c :| c in ls && KeyOf(c) == k;
      }
    }
    forall k | k in KeySet(cs)
      ensures k in o.results
    {
      var c :| c in cs && KeyOf(c) == k;
      if c in ls {
        assert k in KeySet(ls);
      }
    }
  }

  /**
   * The cache after a batch: entries cached before are not overwritten and
   * the cache gains exactly the candidates' keys.
   */
  lemma OutcomeCache(e0: map<Key, Cost>, cs: seq<Config>, sim: Simulator)
    requires Evaluable(cs)
    ensures var o := Outcome(e0, cs, sim);
      && (forall k :: k in e0 ==> k in o.entries && o.entries[k] == e0[k])
      && o.entries.Keys == e0.Keys + KeySet(cs)
  {
    var r := Resolved(e0, cs);
    ResolvedFacts(e0, cs);
    GatheredFacts(r, r.launched, sim);
    LaunchedKeys(e0, cs);
    var o := Outcome(e0, cs, sim);
    forall k | k in KeySet(cs)
      ensures k in o.entries
    {
      var c :| c in cs && KeyOf(c) == k;
      if c in r.launched {
        assert k in KeySet(r.launched);
      }
    }
    forall k | k in r.entries && k !in e0
      ensures k in KeySet(cs)
    {
      assert r.results[k].cfg in cs;
    }
  }

  /** A cache whose every entry is the cost of its configuration stays so after a batch. */
  lemma OutcomeFaithful(e0: map<Key, Cost>, cs: seq<Config>, sim: Simulator)
    requires Evaluable(cs)
    requires Faithful(e0, sim)
    ensures Faithful(Outcome(e0, cs, sim).entries, sim)
  {
    var r := Resolved(e0, cs);
    ResolvedFacts(e0, cs);
    GatheredFacts(r, r.launched, sim);
    var o := Outcome(e0, cs, sim);
    var ls := r.launched;
    forall k | k in o.entries
      ensures k.4 != 0 && o.entries[k] == CostOf(FromKey(k), sim)
    {
      if k in KeySet(ls) {
        var c :| c in ls && KeyOf(c) == k;
        KeyIdentifiesConfig(FromKey(k), c);
      } else if k !in e0 {
        assert k in r.entries;
      }
    }
  }

  // ---------------------------------------------------------------------------
  // The evaluator

  /**
   * Evaluates a batch: the cache, the results (each candidate's key mapped to
   * the candidate and its cost), the results' iteration order and the
   * launched candidates are those of `Outcome`, whose properties
   * `OutcomeResults`, `OutcomeCache` and `OutcomeFaithful` state; each launch is logged on the cache.
   */
  method RunParallel(cache: CostCache, candidates: seq<Config>, sim: Simulator)
    returns (results: map<Key, Evaluated>, order: seq<Key>, launched: seq<Config>)
    requires Evaluable(candidates)
    modifies cache
    ensures Batch(cache.entries, results, order, launched) == Outcome(old(cache.entries), candidates, sim)
    ensures cache.launches == old(cache.launches) + Keys(launched)
  {
    results, order, launched := Resolve(cache, candidates);
    results, order := Gather(cache, launched, results, order, sim);
  }

  /**
   * First pass of a batch: a cache hit and an invalid geometry are resolved at
   * once (the latter cached as +infinity); every other candidate is launched.
   * The source starts those runs here; the model queues them in `launched`
   * and hands each to the simulator, logging the launch, when the second pass
   * waits for it, so this pass leaves the launch log as it was.
   */
  method Resolve(cache: CostCache, candidates: seq<Config>)
    returns (results: map<Key, Evaluated>, order: seq<Key>, launched: seq<Config>)
    requires Evaluable(candidates)
    modifies cache
    ensures Batch(cache.entries, results, order, launched) == Resolved(old(cache.entries), candidates)
    ensures cache.launches == old(cache.launches)
  {
    ghost var cached := cache.entries;
    results, order, launched := map[], [], [];
    var i := 0;
    while i < |candidates|
      invariant 0 <= i <= |candidates|
      invariant Batch(cache.entries, results, order, launched) == Resolved(cached, candidates[..i])
      invariant cache.launches == old(cache.launches)
    {
      var cfg := candidates[i];
      ResolvedPrefix(cached, candidates, i);
      results, order, launched := ResolveOne(cache, cfg, results, order, launched);
      i := i + 1;
    }
    assert candidates[..i] == candidates;
  }

  /** The first pass on one candidate. */
  method ResolveOne(cache: CostCache, cfg: Config, results0: map<Key, Evaluated>, order0: seq<Key>,
                    launched0: seq<Config>)
    returns (results: map<Key, Evaluated>, order: seq<Key>, launched: seq<Config>)
    requires cfg.l1dAssoc != 0
    modifies cache
    ensures Batch(cache.entries, results, order, launched)
      == ResolveStep(Batch(old(cache.entries), results0, order0, launched0), cfg)
    ensures cache.launches == old(cache.launches)
  {
    var key := KeyOf(cfg);
    results, order, launched := results0, order0, launched0;
    if key in cache.entries {
      order := Insert(order, key);
      results := results[key := Evaluated(cfg, cache.entries[key])];
    } else if !ValidCache(cfg.l1dSize, cfg.l1dAssoc) {
      cache.entries := cache.entries[key := Inf];
      order := Insert(order, key);
      results := results[key := Evaluated(cfg, Inf)];
    } else {
      launched := launched + [cfg];
    }
  }

  /** Second pass of a batch: waits for every launched run, in launch order, and records its cost. */
  method Gather(cache: CostCache, launched: seq<Config>, results0: map<Key, Evaluated>, order0: seq<Key>,
                sim: Simulator)
    returns (results: map<Key, Evaluated>, order: seq<Key>)
    modifies cache
    ensures Batch(cache.entries, results, order, launched)
      == Gathered(Batch(old(cache.entries), results0, order0, launched), launched, sim)
    ensures cache.launches == old(cache.launches) + Keys(launched)
  {
    ghost var b := Batch(cache.entries, results0, order0, launched);
    results, order := results0, order0;
    var j := 0;
    while j < |launched|
      invariant 0 <= j <= |launched|
      invariant Batch(cache.entries, results, order, launched) == Gathered(b, launched[..j], sim)
      invariant cache.launches == old(cache.launches) + Keys(launched[..j])
    {
      var cfg := launched[j];
      GatheredPrefix(b, launched, j, sim);
      KeysPrefix(old(cache.launches), launched, j);
      results, order := GatherOne(cache, cfg, launched, results, order, sim);
      j := j + 1;
    }
    assert launched[..j] == launched;
  }

  lemma KeysPrefix(prefix: seq<Key>, cs: seq<Config>, j: nat)
    requires j < |cs|
    ensures prefix + Keys(cs[..j + 1]) == (prefix + Keys(cs[..j])) + [KeyOf(cs[j])]
  {
    assert cs[..j + 1][..j] == cs[..j];
  }

  /** The second pass on one launched candidate. */
  method GatherOne(cache: CostCache, cfg: Config, launched: seq<Config>, results0: map<Key, Evaluated>,
                   order0: seq<Key>, sim: Simulator)
    returns (results: map<Key, Evaluated>, order: seq<Key>)
    modifies cache
    ensures Batch(cache.entries, results, order, launched)
      == GatherStep(Batch(old(cache.entries), results0, order0, launched), cfg, sim)
    ensures cache.launches == old(cache.launches) + [KeyOf(cfg)]
  {
    var cost := Await(cache, cfg, sim);
    order := Insert(order0, KeyOf(cfg));
    results := results0[KeyOf(cfg) := Evaluated(cfg, cost)];
  }

  /** Waits for the run of `cfg`, reads its metric and stores the normalised cost under its key. */
  method Await(cache: CostCache, cfg: Config, sim: Simulator) returns (cost: Cost)
    modifies cache
    ensures cost == Normalize(sim(cfg))
    ensures cache.entries == old(cache.entries)[KeyOf(cfg) := cost]
    ensures cache.launches == old(cache.launches) + [KeyOf(cfg)]
  {
    cost := Normalize(sim(cfg));
    cache.launches := cache.launches + [KeyOf(cfg)];
    cache.entries := cache.entries[KeyOf(cfg) := cost];
  }
}
