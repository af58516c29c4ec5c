/**
 * The cost oracle: costs with +infinity as the failure sentinel, the cost of a
 * configuration as the simulator would report it, and the memoised lookup
 * `RunConfig` over a shared key-to-cost cache.
 *
 * The simulator run and the parse of its statistics file are one opaque
 * total function `Simulator`: it yields the simulated seconds, or None when
 * the statistics file or the metric is missing. The metric pattern only
 * matches unsigned numbers, so the seconds are never negative.
 */
module Oracle {
  import opened Wrappers
  import opened Configuration

  type Seconds = r: real | 0.0 <= r

  type Simulator = Config -> Option<Seconds>

  /** A cost: a number of simulated seconds, or the +infinity sentinel. */
  datatype Cost = Fin(seconds: Seconds) | Inf

  /** Python's `<` on the floats that costs are. */
  predicate Less(a: Cost, b: Cost) {
    a.Fin? && (b.Inf? || a.seconds < b.seconds)
  }

  /** Python's `<=` on the floats that costs are (`inf <= inf` holds). */
  predicate LessEq(a: Cost, b: Cost) {
    b.Inf? || (a.Fin? && a.seconds <= b.seconds)
  }

  /** The two comparisons form one total order with +infinity on top. */
  lemma CostOrder(a: Cost, b: Cost, c: Cost)
    ensures Less(a, b) <==> !LessEq(b, a)
    ensures LessEq(a, a) && LessEq(a, Inf)
    ensures LessEq(a, b) && LessEq(b, c) ==> LessEq(a, c)
    ensures LessEq(a, b) && LessEq(b, a) ==> a == b
  {
  }

  /** A missing metric, and a metric of exactly 0.0, both become +infinity. */
  function Normalize(m: Option<Seconds>): (c: Cost)
    ensures c == Inf <==> m == None || m == Some(0.0)
    ensures c.Fin? ==> c.seconds > 0.0 && m == Some(c.seconds)
  {
    match m
    case None => Inf
    case Some(s) => if s == 0.0 then Inf else Fin(s)
  }

  /**
   * The cost of `c`: +infinity for an invalid cache geometry (the simulator
   * is not run), otherwise the normalised simulator result.
   */
  function CostOf(c: Config, sim: Simulator): (r: Cost)
    requires c.l1dAssoc != 0
    ensures !GeometryOk(c) ==> r == Inf
    ensures r == Inf <==> !GeometryOk(c) || sim(c) == None || sim(c) == Some(0.0)
    ensures r.Fin? ==> r.seconds > 0.0 && sim(c) == Some(r.seconds)
  {
    if GeometryOk(c) then Normalize(sim(c)) else Inf
  }

  /**
   * Every cached cost is the one a fresh evaluation under `sim` would give (so
   * no cached cost is 0.0, and no cached key has a zero associativity).
   */
  predicate Faithful(entries: map<Key, Cost>, sim: Simulator) {
    forall k :: k in entries ==> k.4 != 0 && entries[k] == CostOf(FromKey(k), sim)
  }

  /** A configuration together with the cost found for it (an entry of a batch's results). */
  datatype Evaluated = Evaluated(cfg: Config, cost: Cost)

  /** The cost cache shared by every evaluation of one search run. */
  class CostCache {
    var entries: map<Key, Cost>
    /** The keys handed to the simulator so far, in launch order. */
    ghost var launches: seq<Key>

    constructor ()
      ensures entries == map[] && launches == []
    {
      entries := map[];
      launches := [];
    }

    /** The cached costs are faithful to `sim`, and every simulator launch left its entry. */
    ghost predicate Valid(sim: Simulator)
      reads this
    {
      Faithful(entries, sim) && forall k :: k in launches ==> k in entries
    }
  }

  /** Keys of a sequence of configurations, in order. */
  function Keys(cs: seq<Config>): (ks: seq<Key>)
    ensures |ks| == |cs| && forall i :: 0 <= i < |cs| ==> ks[i] == KeyOf(cs[i])
  {
    if cs == [] then [] else Keys(cs[..|cs| - 1]) + [KeyOf(cs[|cs| - 1])]
  }

  /**
   * The memoised evaluation. A hit returns the stored cost and leaves the
   * cache alone; a miss stores CostOf(cfg, sim) under the key and nothing
   * else, launching the simulator only when the geometry is valid.
   * `launched` stands for the source's output directory being present.
   */
  method RunConfig(cache: CostCache, cfg: Config, sim: Simulator) returns (cost: Cost, launched: bool)
    requires KeyOf(cfg) in cache.entries || cfg.l1dAssoc != 0
    modifies cache
    ensures var key := KeyOf(cfg);
      if key in old(cache.entries) then
        && cost == old(cache.entries)[key]
        && cache.entries == old(cache.entries)
        && !launched
      else
        && cost == CostOf(cfg, sim)
        && cache.entries == old(cache.entries)[key := cost]
        && launched == GeometryOk(cfg)
    ensures cache.launches == old(cache.launches) + (if launched then [KeyOf(cfg)] else [])
    ensures old(cache.Valid(sim)) ==> cache.Valid(sim) && cost == CostOf(cfg, sim)
  {
    var key := KeyOf(cfg);
    if key in cache.entries {
      cost, launched := cache.entries[key], false;
      return;
    }
    if !ValidCache(cfg.l1dSize, cfg.l1dAssoc) {
      cache.entries := cache.entries[key := Inf];
      cost, launched := Inf, false;
      return;
    }
    cost := Normalize(sim(cfg));
    cache.launches := cache.launches + [key];
    cache.entries := cache.entries[key := cost];
    launched := true;
  }
}
