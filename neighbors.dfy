/**
 * The neighbour generator: the structural moves of a configuration (one
 * functional-unit count up or down within its bounds, one step along the
 * ordered size or associativity list), filtered by cache validity and
 * de-duplicated, then padded with random valid samples, shuffled and
 * truncated. The random draws are inputs: `samples` are the configurations
 * the padding loop draws, in order, and `swaps` the indices the shuffle draws.
 */
module Neighbors {
  import opened Wrappers
  import opened Configuration

  const STEPS: seq<int> := [-1, 1]

  /** Position of `v` in `xs`: its first occurrence, as the source's `list.index` returns. */
  function IndexOf(xs: seq<int>, v: int): (i: nat)
    requires v in xs
    ensures i < |xs| && xs[i] == v && v !in xs[..i]
  {
    if xs[0] == v then 0 else 1 + IndexOf(xs[1..], v)
  }

  /** In a list without repetitions, the position of the element at `j` is `j`. */
  lemma IndexOfDistinct(xs: seq<int>, j: int)
    requires Distinct(xs) && 0 <= j < |xs|
    ensures IndexOf(xs, xs[j]) == j
  {
    var i := IndexOf(xs, xs[j]);
    assert xs[j] !in xs[..i];
  }

  // ---------------------------------------------------------------------------
  // Structural proposals

  /** Count of `u` moved by `step`, when the new count stays within its bounds. */
  function UnitProposal(c: Config, u: Unit, step: int): Option<Config> {
    var v := Count(c, u) + step;
    if Lo(u) <= v <= Hi(u) then Some(WithCount(c, u, v)) else None
  }

  /** The element `step` places away from `v` in the ordered list `xs`, when there is one. */
  function ListStep(xs: seq<int>, v: int, step: int): Option<int>
    requires v in xs
  {
    var j := IndexOf(xs, v) + step;
    if 0 <= j < |xs| then Some(xs[j]) else None
  }

  function SizeProposal(c: Config, step: int): Option<Config>
    requires c.l1dSize in L1D_SIZES
  {
    match ListStep(L1D_SIZES, c.l1dSize, step)
    case None => None
    case Some(s) => Some(c.(l1dSize := s))
  }

  function AssocProposal(c: Config, step: int): Option<Config>
    requires c.l1dAssoc in L1D_ASSOCS
  {
    match ListStep(L1D_ASSOCS, c.l1dAssoc, step)
    case None => None
    case Some(a) => Some(c.(l1dAssoc := a))
  }

  /** The number of proposals made for every configuration. */
  const SLOTS := 10

  /**
   * Proposal number `s`, in the order the source makes them: each unit (ALU,
   * read, write) down then up (slots 0 to 5), then the size down and up
   * (slots 6 and 7), then the associativity down and up (slots 8 and 9).
   */
  function Proposal(c: Config, s: nat): Option<Config>
    requires InLists(c) && s < SLOTS
  {
    if s < 2 then UnitProposal(c, IntAlu, STEPS[s])
    else if s < 4 then UnitProposal(c, Read, STEPS[s - 2])
    else if s < 6 then UnitProposal(c, Write, STEPS[s - 4])
    else if s < 8 then SizeProposal(c, STEPS[s - 6])
    else AssocProposal(c, STEPS[s - 8])
  }

  /** Slot `2 * i + j` holds the proposal for unit `i` and step `j`. */
  lemma UnitSlot(c: Config, i: nat, j: nat)
    requires InLists(c) && i < 3 && j < 2
    ensures Proposal(c, 2 * i + j) == UnitProposal(c, UNITS[i], STEPS[j])
  {
  }

  /** `n` is one of the proposals for `c`. */
  predicate Proposed(c: Config, n: Config)
    requires InLists(c)
  {
    exists s :: 0 <= s < SLOTS && Proposal(c, s) == Some(n)
  }

  /** A proposal the source keeps: present, and of valid cache geometry. */
  predicate Admissible(o: Option<Config>) {
    o.Some? && o.value.l1dAssoc != 0 && GeometryOk(o.value)
  }

  /** What one proposal adds to the set: its configuration when admissible, nothing otherwise. */
  function Added(o: Option<Config>): set<Config> {
    if Admissible(o) then {o.value} else {}
  }

  /** The configurations of the admissible proposals among the first `m` slots. */
  function Collected(c: Config, m: nat): set<Config>
    requires InLists(c) && m <= SLOTS
  {
    set s | 0 <= s < m && Admissible(Proposal(c, s)) :: Proposal(c, s).value
  }

  /** Considering one more slot adds exactly what that proposal contributes. */
  lemma CollectedStep(c: Config, m: nat)
    requires InLists(c) && m < SLOTS
    ensures Collected(c, m + 1) == Collected(c, m) + Added(Proposal(c, m))
  {
    forall x | x in Collected(c, m + 1)
      ensures x in Collected(c, m) + Added(Proposal(c, m))
    {
      var s :| 0 <= s < m + 1 && Admissible(Proposal(c, s)) && Proposal(c, s).value == x;
      if s < m {
        assert x in Collected(c, m);
      }
    }
  }

  /** The de-duplicated set of valid structural neighbours of `c`. */
  function StructuralSet(c: Config): set<Config>
    requires InLists(c)
  {
    Collected(c, SLOTS)
  }

  // ---------------------------------------------------------------------------
  // What a structural move is, independently of how the proposals are listed

  /** `n` is `c` with the count of `u` moved by one and still within its bounds. */
  predicate UnitMove(c: Config, n: Config, u: Unit) {
    && n == WithCount(c, u, Count(n, u))
    && (Count(n, u) == Count(c, u) - 1 || Count(n, u) == Count(c, u) + 1)
    && Lo(u) <= Count(n, u) <= Hi(u)
  }

  /** `b` sits right before or right after `a` in `xs`. */
  predicate Adjacent(xs: seq<int>, a: int, b: int) {
    a in xs && b in xs && (IndexOf(xs, b) == IndexOf(xs, a) - 1 || IndexOf(xs, b) == IndexOf(xs, a) + 1)
  }

  predicate SizeMove(c: Config, n: Config) {
    n == c.(l1dSize := n.l1dSize) && Adjacent(L1D_SIZES, c.l1dSize, n.l1dSize)
  }

  predicate AssocMove(c: Config, n: Config) {
    n == c.(l1dAssoc := n.l1dAssoc) && Adjacent(L1D_ASSOCS, c.l1dAssoc, n.l1dAssoc)
  }

  predicate StructuralMove(c: Config, n: Config) {
    UnitMove(c, n, IntAlu) || UnitMove(c, n, Read) || UnitMove(c, n, Write) || SizeMove(c, n) || AssocMove(c, n)
  }

  /** How many of the five parameters differ between `a` and `b`. */
  function ChangedFields(a: Config, b: Config): nat {
    (if a.intAlu != b.intAlu then 1 else 0) + (if a.read != b.read then 1 else 0)
      + (if a.write != b.write then 1 else 0) + (if a.l1dSize != b.l1dSize then 1 else 0)
      + (if a.l1dAssoc != b.l1dAssoc then 1 else 0)
  }

  /** A structural move changes exactly one parameter (so it never yields the origin). */
  lemma StructuralMoveChangesOneField(c: Config, n: Config)
    requires StructuralMove(c, n)
    ensures ChangedFields(c, n) == 1
  {
    if SizeMove(c, n) {
      assert IndexOf(L1D_SIZES, n.l1dSize) != IndexOf(L1D_SIZES, c.l1dSize);
    } else if AssocMove(c, n) {
      assert IndexOf(L1D_ASSOCS, n.l1dAssoc) != IndexOf(L1D_ASSOCS, c.l1dAssoc);
    }
  }

  lemma UnitProposalIsMove(c: Config, u: Unit, step: int)
    requires step in STEPS && UnitProposal(c, u, step).Some?
    ensures UnitMove(c, UnitProposal(c, u, step).value, u)
  {
  }

  lemma SizeProposalIsMove(c: Config, step: int)
    requires InLists(c) && step in STEPS && SizeProposal(c, step).Some?
    ensures SizeMove(c, SizeProposal(c, step).value)
  {
    IndexOfDistinct(L1D_SIZES, IndexOf(L1D_SIZES, c.l1dSize) + step);
  }

  lemma AssocProposalIsMove(c: Config, step: int)
    requires InLists(c) && step in STEPS && AssocProposal(c, step).Some?
    ensures AssocMove(c, AssocProposal(c, step).value)
  {
    IndexOfDistinct(L1D_ASSOCS, IndexOf(L1D_ASSOCS, c.l1dAssoc) + step);
  }

  /** Each proposal is a structural move. */
  lemma ProposalIsMove(c: Config, s: nat)
    requires InLists(c) && s < SLOTS && Proposal(c, s).Some?
    ensures StructuralMove(c, Proposal(c, s).value)
  {
    if s < 2 {
      UnitProposalIsMove(c, IntAlu, STEPS[s]);
    } else if s < 4 {
      UnitProposalIsMove(c, Read, STEPS[s - 2]);
    } else if s < 6 {
      UnitProposalIsMove(c, Write, STEPS[s - 4]);
    } else if s < 8 {
      SizeProposalIsMove(c, STEPS[s - 6]);
    } else {
      AssocProposalIsMove(c, STEPS[s - 8]);
    }
  }

  /** Each structural move is proposed. */
  lemma MoveIsProposed(c: Config, n: Config)
    requires InLists(c) && StructuralMove(c, n)
    ensures Proposed(c, n)
  {
    if SizeMove(c, n) {
      var s := if IndexOf(L1D_SIZES, n.l1dSize) < IndexOf(L1D_SIZES, c.l1dSize) then 0 else 1;
      assert Proposal(c, 6 + s) == Some(n);
    } else if AssocMove(c, n) {
      var s := if IndexOf(L1D_ASSOCS, n.l1dAssoc) < IndexOf(L1D_ASSOCS, c.l1dAssoc) then 0 else 1;
      assert Proposal(c, 8 + s) == Some(n);
    } else {
      var i := if UnitMove(c, n, IntAlu) then 0 else if UnitMove(c, n, Read) then 1 else 2;
      var u := UNITS[i];
      assert UnitMove(c, n, u);
      var j := if Count(n, u) < Count(c, u) then 0 else 1;
      UnitSlot(c, i, j);
      assert Proposal(c, 2 * i + j) == Some(n);
    }
  }

  /** The proposals are exactly the structural moves of `c`. */
  lemma ProposalsAreStructuralMoves(c: Config, n: Config)
    requires InLists(c)
    ensures Proposed(c, n) <==> StructuralMove(c, n)
  {
    if Proposed(c, n) {
      var s :| 0 <= s < SLOTS && Proposal(c, s) == Some(n);
      ProposalIsMove(c, s);
    }
    if StructuralMove(c, n) {
      MoveIsProposed(c, n);
    }
  }

  /** Every valid structural neighbour keeps both cache parameters listed and differs from `c`. */
  lemma StructuralSetShape(c: Config, n: Config)
    requires InLists(c) && n in StructuralSet(c)
    ensures StructuralMove(c, n) && InLists(n) && n != c && GeometryOk(n)
  {
    var s :| 0 <= s < SLOTS && Admissible(Proposal(c, s)) && Proposal(c, s).value == n;
    assert Proposal(c, s) == Some(n);
    ProposalsAreStructuralMoves(c, n);
    StructuralMoveChangesOneField(c, n);
  }

  // ---------------------------------------------------------------------------
  // The generator

  /** The structural loops: every valid proposal is added to a set. */
  method CollectStructural(cfg: Config) returns (neighs: set<Config>)
    requires InLists(cfg)
    ensures neighs == StructuralSet(cfg)
  {
    neighs := CollectUnitMoves(cfg);
    neighs := CollectSizeMoves(cfg, neighs);
    neighs := CollectAssocMoves(cfg, neighs);
  }

  /** The loop over the units and the two steps: slots 0 to 5. */
  method CollectUnitMoves(cfg: Config) returns (neighs: set<Config>)
    requires InLists(cfg)
    ensures neighs == Collected(cfg, 6)
  {
    neighs := {};
    var i := 0;
    while i < |UNITS|
      invariant 0 <= i <= |UNITS|
      invariant neighs == Collected(cfg, 2 * i)
    {
      neighs := CollectUnit(cfg, i, neighs);
      i := i + 1;
    }
  }

  /** The two steps of unit number `i`: slots `2 * i` and `2 * i + 1`. */
  method CollectUnit(cfg: Config, i: nat, neighs0: set<Config>) returns (neighs: set<Config>)
    requires InLists(cfg) && i < |UNITS| && neighs0 == Collected(cfg, 2 * i)
    ensures neighs == Collected(cfg, 2 * i + 2)
  {
    neighs := neighs0;
    var u := UNITS[i];
    var j := 0;
    while j < |STEPS|
      invariant 0 <= j <= |STEPS|
      invariant neighs == Collected(cfg, 2 * i + j)
    {
      var v := Count(cfg, u) + STEPS[j];
      UnitSlotAdds(cfg, i, j);
      if Lo(u) <= v <= Hi(u) {
        var n := WithCount(cfg, u, v);
        if ValidCache(n.l1dSize, n.l1dAssoc) {
          neighs := neighs + {n};
        }
      }
      j := j + 1;
    }
  }

  /** The loop moving the cache size one step down and up the size list: slots 6 and 7. */
  method CollectSizeMoves(cfg: Config, neighs0: set<Config>) returns (neighs: set<Config>)
    requires InLists(cfg) && neighs0 == Collected(cfg, 6)
    ensures neighs == Collected(cfg, 8)
  {
    neighs := neighs0;
    var idx := IndexOf(L1D_SIZES, cfg.l1dSize);
    var j := 0;
    while j < |STEPS|
      invariant 0 <= j <= |STEPS|
      invariant neighs == Collected(cfg, 6 + j)
    {
      var newIdx := idx + STEPS[j];
      CollectedStep(cfg, 6 + j);
      assert Proposal(cfg, 6 + j) == SizeProposal(cfg, STEPS[j]);
      if 0 <= newIdx < |L1D_SIZES| {
        var n := cfg.(l1dSize := L1D_SIZES[newIdx]);
        if ValidCache(n.l1dSize, n.l1dAssoc) {
          neighs := neighs + {n};
        }
      }
      j := j + 1;
    }
  }

  /** The loop moving the associativity one step down and up its list: slots 8 and 9. */
  method CollectAssocMoves(cfg: Config, neighs0: set<Config>) returns (neighs: set<Config>)
    requires InLists(cfg) && neighs0 == Collected(cfg, 8)
    ensures neighs == Collected(cfg, SLOTS)
  {
    neighs := neighs0;
    var idx := IndexOf(L1D_ASSOCS, cfg.l1dAssoc);
    var j := 0;
    while j < |STEPS|
      invariant 0 <= j <= |STEPS|
      invariant neighs == Collected(cfg, 8 + j)
    {
      var newIdx := idx + STEPS[j];
      CollectedStep(cfg, 8 + j);
      assert Proposal(cfg, 8 + j) == AssocProposal(cfg, STEPS[j]);
      if 0 <= newIdx < |L1D_ASSOCS| {
        var n := cfg.(l1dAssoc := L1D_ASSOCS[newIdx]);
        if ValidCache(n.l1dSize, n.l1dAssoc) {
          neighs := neighs + {n};
        }
      }
      j := j + 1;
    }
  }

  /** A unit proposal contributes its configuration exactly when the count stays in bounds and the geometry is valid. */
  lemma UnitAdded(c: Config, u: Unit, step: int)
    requires c.l1dAssoc != 0
    ensures var v := Count(c, u) + step;
      Added(UnitProposal(c, u, step))
        == if Lo(u) <= v <= Hi(u) && ValidCache(c.l1dSize, c.l1dAssoc) then {WithCount(c, u, v)} else {}
  {
  }

  /** What slot `2 * i + j` adds to the set: unit `i` moved by step `j`, when in bounds and valid. */
  lemma UnitSlotAdds(c: Config, i: nat, j: nat)
    requires InLists(c) && i < |UNITS| && j < |STEPS|
    ensures var u := UNITS[i];
      var v := Count(c, u) + STEPS[j];
      var n := WithCount(c, u, v);
      Collected(c, 2 * i + j + 1)
        == if Lo(u) <= v <= Hi(u) && ValidCache(n.l1dSize, n.l1dAssoc) then Collected(c, 2 * i + j) + {n}
           else Collected(c, 2 * i + j)
  {
    UnitSlot(c, i, j);
    CollectedStep(c, 2 * i + j);
    UnitAdded(c, UNITS[i], STEPS[j]);
  }

  /** The list built from the set of structural neighbours: each element once, in an unspecified order. */
  method ListOf(s: set<Config>) returns (xs: seq<Config>)
    ensures Distinct(xs)
    ensures forall x :: x in xs <==> x in s
  {
    xs := [];
    var rest := s;
    while rest != {}
      invariant rest <= s
      invariant forall x :: x in xs <==> x in s && x !in rest
      invariant Distinct(xs)
      decreases |rest|
    {
      var x :| x in rest;
      xs := xs + [x];
      rest := rest - {x};
    }
  }

  /**
   * The standard library's in-place shuffle (Fisher-Yates from the last
   * position down). `swaps[k]` is the k-th index drawn; a position for which
   * no draw is given stays where it is.
   */
  method Shuffle<T>(xs: seq<T>, swaps: seq<nat>) returns (ys: seq<T>)
    ensures |ys| == |xs| && multiset(ys) == multiset(xs)
  {
    ys := xs;
    var i := |ys| - 1;
    var k := 0;
    while i >= 1
      invariant -1 <= i < |ys| == |xs|
      invariant multiset(ys) == multiset(xs)
    {
      var j := if k < |swaps| then swaps[k] % (i + 1) else i;
      ys := ys[i := ys[j]][j := ys[i]];
      i, k := i - 1, k + 1;
    }
  }

  /** A sequence is free of repetitions exactly when no element occurs twice in its multiset. */
  lemma {:induction false} DistinctCounts<T>(s: seq<T>)
    ensures Distinct(s) <==> forall x :: multiset(s)[x] <= 1
  {
    if s != [] {
      var init, last := s[..|s| - 1], s[|s| - 1];
      assert s == init + [last];
      assert multiset(s) == multiset(init) + multiset{last};
      DistinctCounts(init);
      if Distinct(s) {
        assert last !in init;
      } else {
        var i, j :| 0 <= i < j < |s| && s[i] == s[j];
        if j == |s| - 1 {
          assert init[i] == last;
          assert multiset(init)[last] >= 1;
          assert multiset(s)[last] >= 2;
        } else {
          assert init[i] == init[j];
          var x :| multiset(init)[x] > 1;
          assert multiset(s)[x] > 1;
        }
      }
    }
  }

  /** Rearranging a sequence keeps it free of repetitions. */
  lemma DistinctPermutation<T>(xs: seq<T>, ys: seq<T>)
    requires multiset(xs) == multiset(ys) && Distinct(xs)
    ensures Distinct(ys)
  {
    DistinctCounts(xs);
    DistinctCounts(ys);
  }

  /** A padding sample the source keeps: a different point of valid geometry, with listed cache parameters. */
  predicate Acceptable(cfg: Config, x: Config) {
    InLists(x) && x != cfg && GeometryOk(x)
  }

  /** One padding step: `x` is appended when it differs from `cfg`, has a valid geometry and is not yet present. */
  function Admit(cfg: Config, ns: seq<Config>, x: Config): seq<Config>
    requires x.l1dAssoc != 0
  {
    if x != cfg && GeometryOk(x) && x !in ns then ns + [x] else ns
  }

  /** The padding loop as a function: samples are taken in order until `max` neighbours are reached or they run out. */
  function Padded(cfg: Config, ns: seq<Config>, max: nat, samples: seq<Config>): seq<Config>
    requires forall x :: x in samples ==> x.l1dAssoc != 0
    decreases |samples|
  {
    if |ns| >= max || samples == [] then ns
    else Padded(cfg, Admit(cfg, ns, samples[0]), max, samples[1..])
  }

  /**
   * Padding keeps the list free of repetitions and its existing elements in
   * place, only grows it up to `max`, and adds only samples that differ from
   * `cfg` and have a valid geometry.
   */
  lemma {:induction false} PaddedExtends(cfg: Config, ns: seq<Config>, max: nat, samples: seq<Config>)
    requires forall x :: x in samples ==> x.l1dAssoc != 0
    requires Distinct(ns)
    ensures var r := Padded(cfg, ns, max, samples);
      && Distinct(r)
      && |r| >= |ns| && r[..|ns|] == ns
      && (|r| > |ns| ==> |r| <= max)
      && forall x :: x in r ==> x in ns || (x in samples && x != cfg && GeometryOk(x))
    decreases |samples|
  {
    if |ns| < max && samples != [] {
      var x := samples[0];
      var next := Admit(cfg, ns, x);
      assert Distinct(next);
      assert next[..|ns|] == ns;
      assert forall y :: y in samples[1..] ==> y in samples;
      PaddedExtends(cfg, next, max, samples[1..]);
      var r := Padded(cfg, next, max, samples[1..]);
      assert r[..|next|][..|ns|] == r[..|ns|];
    }
  }

  /** When padding ends short of `max`, every sample it could have taken is present. */
  lemma {:induction false} PaddedComplete(cfg: Config, ns: seq<Config>, max: nat, samples: seq<Config>)
    requires forall x :: x in samples ==> x.l1dAssoc != 0
    requires Distinct(ns)
    ensures var r := Padded(cfg, ns, max, samples);
      |r| < max ==> forall x :: x in samples && x != cfg && GeometryOk(x) ==> x in r
    decreases |samples|
  {
    if |ns| < max && samples != [] {
      var x := samples[0];
      var next := Admit(cfg, ns, x);
      PaddedExtends(cfg, next, max, samples[1..]);
      PaddedComplete(cfg, next, max, samples[1..]);
      var r := Padded(cfg, next, max, samples[1..]);
      assert samples == [x] + samples[1..];
      if x != cfg && GeometryOk(x) {
        assert x in next;
        var i :| 0 <= i < |next| && next[i] == x;
        assert r[i] == x;
      }
    }
  }

  /**
   * The padding loop: while there are fewer than `maxNeighbors` neighbours,
   * the next sample is appended when it is a different point of valid
   * geometry not yet present. It stops early only when the samples run out.
   */
  method Pad(cfg: Config, neighbors0: seq<Config>, maxNeighbors: nat, samples: seq<Config>)
    returns (neighbors: seq<Config>)
    requires forall x :: x in samples ==> x.l1dAssoc != 0
    ensures neighbors == Padded(cfg, neighbors0, maxNeighbors, samples)
  {
    neighbors := neighbors0;
    var k := 0;
    while |neighbors| < maxNeighbors && k < |samples|
      invariant 0 <= k <= |samples|
      invariant forall x :: x in samples[k..] ==> x.l1dAssoc != 0
      invariant Padded(cfg, neighbors, maxNeighbors, samples[k..]) == Padded(cfg, neighbors0, maxNeighbors, samples)
    {
      var x := samples[k];
      assert samples[k..][1..] == samples[k + 1..];
      if x != cfg && ValidCache(x.l1dSize, x.l1dAssoc) {
        if x !in neighbors {
          neighbors := neighbors + [x];
        }
      }
      k := k + 1;
    }
  }

  /**
   * Up to `maxNeighbors` pairwise distinct neighbours of `cfg`, each of valid
   * geometry and different from `cfg`, each either a valid structural
   * neighbour or one of the samples. Padding only appends after the
   * structural neighbours and truncation drops entries only when all of them
   * are structural, so either every valid structural neighbour is kept or the
   * result is structural neighbours only. When fewer come back, nothing was
   * cut: every valid structural neighbour and every acceptable sample is among them.
   */
  method AllNeighbors(cfg: Config, maxNeighbors: nat, samples: seq<Config>, swaps: seq<nat>)
    returns (r: seq<Config>)
    requires InLists(cfg)
    requires forall x :: x in samples ==> InDomain(x)
    ensures |r| <= maxNeighbors
    ensures Distinct(r)
    ensures forall x :: x in r ==> Acceptable(cfg, x) && (x in StructuralSet(cfg) || x in samples)
    ensures (forall x :: x in StructuralSet(cfg) ==> x in r) || (forall x :: x in r ==> x in StructuralSet(cfg))
    ensures |r| < maxNeighbors ==> forall x :: x in StructuralSet(cfg) ==> x in r
    ensures |r| < maxNeighbors ==> forall x :: x in samples && Acceptable(cfg, x) ==> x in r
  {
    var neighs := CollectStructural(cfg);
    var structural := ListOf(neighs);
    forall x | x in samples
      ensures InLists(x) && GeometryOk(x)
    {
      assert InDomain(x);
      AllListedGeometriesValid(x.l1dSize, x.l1dAssoc);
    }
    var neighbors := Pad(cfg, structural, maxNeighbors, samples);
    PaddedExtends(cfg, structural, maxNeighbors, samples);
    PaddedComplete(cfg, structural, maxNeighbors, samples);
    var shuffled := Shuffle(neighbors, swaps);
    r := if |shuffled| <= maxNeighbors then shuffled else shuffled[..maxNeighbors];

    DistinctPermutation(neighbors, shuffled);
    assert forall x :: x in shuffled <==> x in neighbors by {
      assert forall x :: x in shuffled <==> x in multiset(shuffled);
    }
    forall x | x in r
      ensures Acceptable(cfg, x) && (x in StructuralSet(cfg) || x in samples)
    {
      assert x in shuffled;
      if x in structural {
        StructuralSetShape(cfg, x);
      }
    }
    if |neighbors| <= maxNeighbors {
      assert r == shuffled;
      forall x | x in StructuralSet(cfg)
        ensures x in r
      {
        assert x in structural;
        assert x in neighbors by {
          var i :| 0 <= i < |structural| && structural[i] == x;
          assert neighbors[i] == x;
        }
      }
    } else {
      // padding never grows a list beyond the maximum, so nothing was padded
      assert neighbors == structural by {
        assert |neighbors| == |structural|;
        assert neighbors == neighbors[..|structural|];
      }
    }
  }
}
