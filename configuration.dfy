/**
 * The configuration model of the annealing explorer: a point of the design
 * space (three functional-unit counts and the L1 data-cache geometry), its
 * cache key, the search-space constants, and the structural validity check
 * that the number of cache sets is a positive power of two.
 */
module Configuration {

  /** One design point. The source keeps it as a dictionary with exactly these five entries. */
  datatype Config = Config(intAlu: int, read: int, write: int, l1dSize: int, l1dAssoc: int)

  /** The cache key: the five parameter values in a fixed order. */
  type Key = (int, int, int, int, int)

  /** The functional units whose counts are searched. */
  datatype Unit = IntAlu | Read | Write

  const UNITS: seq<Unit> := [IntAlu, Read, Write]
  /** L1 data-cache sizes in kB, in increasing order. */
  const L1D_SIZES: seq<int> := [64, 128, 256, 512]
  const L1D_ASSOCS: seq<int> := [2, 4, 8, 16]
  /** Cache line size in bytes. */
  const LINE_SIZE := 64

  /** Inclusive lower bound on the count of unit `u`. */
  function Lo(u: Unit): int {
    1
  }

  /** Inclusive upper bound on the count of unit `u`. */
  function Hi(u: Unit): int {
    match u
    case IntAlu => 6
    case Read => 8
    case Write => 8
  }

  function Count(c: Config, u: Unit): int {
    match u
    case IntAlu => c.intAlu
    case Read => c.read
    case Write => c.write
  }

  /** `c` with the count of `u` replaced by `v` (the source's `new_cfg = dict(cfg); new_cfg[k] = v`). */
  function WithCount(c: Config, u: Unit, v: int): (n: Config)
    ensures Count(n, u) == v
    ensures forall w :: w != u ==> Count(n, w) == Count(c, w)
    ensures n.l1dSize == c.l1dSize && n.l1dAssoc == c.l1dAssoc
  {
    match u
    case IntAlu => c.(intAlu := v)
    case Read => c.(read := v)
    case Write => c.(write := v)
  }

  function KeyOf(c: Config): (k: Key)
    ensures FromKey(k) == c
  {
    (c.intAlu, c.read, c.write, c.l1dSize, c.l1dAssoc)
  }

  function FromKey(k: Key): Config {
    Config(k.0, k.1, k.2, k.3, k.4)
  }

  /** Two configurations share a key exactly when they are the same point. */
  lemma KeyIdentifiesConfig(a: Config, b: Config)
    ensures KeyOf(a) == KeyOf(b) <==> a == b
  {
    assert FromKey(KeyOf(a)) == a && FromKey(KeyOf(b)) == b;
  }

  /** No element occurs twice. */
  predicate Distinct<T(==)>(s: seq<T>) {
    forall i, j :: 0 <= i < j < |s| ==> s[i] != s[j]
  }

  // ---------------------------------------------------------------------------
  // Python's `&` on non-negative integers, and the power-of-two test built on it

  /** Bitwise and of two naturals, bit by bit from the least significant one. */
  function BitAnd(a: nat, b: nat): (r: nat)
    ensures r <= a && r <= b
    ensures r % 2 == 1 <==> a % 2 == 1 && b % 2 == 1
    decreases a
  {
    if a == 0 || b == 0 then 0
    else
      var high, low := BitAnd(a / 2, b / 2), if a % 2 == 1 && b % 2 == 1 then 1 else 0;
      assert a == 2 * (a / 2) + a % 2 && b == 2 * (b / 2) + b % 2;
      assert low <= a % 2 && low <= b % 2;
      assert (2 * high + low) % 2 == low;
      2 * high + low
  }

  function Pow2(k: nat): (p: nat)
    ensures p >= 1
  {
    if k == 0 then 1 else 2 * Pow2(k - 1)
  }

  /** `x` is 2^k for some k. */
  ghost predicate SomePow2(x: int) {
    exists k: nat :: Pow2(k) == x
  }

  lemma {:induction false} BitAndSelf(y: nat)
    ensures BitAnd(y, y) == y
  {
    if y != 0 {
      BitAndSelf(y / 2);
    }
  }

  lemma {:induction false} PowerOfTwoHasExponent(x: int)
    requires x > 0 && BitAnd(x, x - 1) == 0
    ensures SomePow2(x)
    decreases x
  {
    if x == 1 {
      assert Pow2(0) == x;
    } else if x % 2 == 0 {
      assert (x - 1) / 2 == x / 2 - 1;
      assert BitAnd(x, x - 1) == 2 * BitAnd(x / 2, x / 2 - 1);
      PowerOfTwoHasExponent(x / 2);
      var k: nat :| Pow2(k) == x / 2;
      assert Pow2(k + 1) == x;
    } else {
      BitAndSelf(x / 2);
      assert false;
    }
  }

  lemma {:induction false} ExponentIsPowerOfTwo(k: nat)
    ensures BitAnd(Pow2(k), Pow2(k) - 1) == 0
  {
    if k > 0 {
      ExponentIsPowerOfTwo(k - 1);
      var y := Pow2(k - 1);
      assert Pow2(k) / 2 == y && (Pow2(k) - 1) / 2 == y - 1 && Pow2(k) % 2 == 0;
      assert BitAnd(Pow2(k), Pow2(k) - 1) == 2 * BitAnd(y, y - 1);
    }
  }

  /** The bit trick on a positive number agrees with the arithmetic definition: exactly the numbers 2^k. */
  lemma BitTrickIff(x: int)
    ensures x > 0 && BitAnd(x, x - 1) == 0 <==> SomePow2(x)
  {
    if x > 0 && BitAnd(x, x - 1) == 0 {
      PowerOfTwoHasExponent(x);
    }
    if SomePow2(x) {
      var k: nat :| Pow2(k) == x;
      ExponentIsPowerOfTwo(k);
    }
  }

  /** The source's test: positive, and clearing the lowest set bit leaves nothing. It holds exactly for 2^k. */
  function IsPowerOfTwo(x: int): (b: bool)
    ensures b <==> SomePow2(x)
  {
    BitTrickIff(x);
    x > 0 && BitAnd(x, x - 1) == 0
  }

  // ---------------------------------------------------------------------------
  // Cache geometry

  /** Python's floor division `a // d` (Dafny's `/` is Euclidean and differs for a negative divisor). */
  function FloorDiv(a: int, d: int): (q: int)
    requires d != 0
    ensures d > 0 ==> d * q <= a < d * q + d
    ensures d < 0 ==> d * q >= a > d * q + d
  {
    if d > 0 then a / d else (-a) / (-d)
  }

  /** Number of sets of a cache of `sizeKb` kB with associativity `assoc`. */
  function Sets(sizeKb: int, assoc: int): int
    requires assoc != 0
  {
    FloorDiv(sizeKb * 1024, LINE_SIZE * assoc)
  }

  /** The geometry is realisable: the set count is positive and a power of two, that is, 2^k for some k. */
  function ValidCache(sizeKb: int, assoc: int): (b: bool)
    requires assoc != 0
    ensures b <==> SomePow2(Sets(sizeKb, assoc))
  {
    Sets(sizeKb, assoc) > 0 && IsPowerOfTwo(Sets(sizeKb, assoc))
  }

  /** A configuration whose cache geometry passes the check (the associativity must be non-zero). */
  predicate GeometryOk(c: Config)
    requires c.l1dAssoc != 0
  {
    ValidCache(c.l1dSize, c.l1dAssoc)
  }

  /** A 64 kB, 4-way cache has 256 sets; a 6-way one would have 170 and is rejected. */
  lemma ValidCacheExamples()
    ensures Sets(64, 4) == 256 && ValidCache(64, 4)
    ensures Sets(64, 6) == 170 && !ValidCache(64, 6)
  {
    assert Pow2(8) == 256;
    ExponentIsPowerOfTwo(8);
    BitAndSelf(42);
    assert BitAnd(85, 84) == 84;
  }

  /** Every size of the list combined with every associativity of the list is a valid geometry. */
  lemma AllListedGeometriesValid(sizeKb: int, assoc: int)
    requires sizeKb in L1D_SIZES && assoc in L1D_ASSOCS
    ensures ValidCache(sizeKb, assoc)
  {
    // the set count sizeKb * 16 / assoc lies among 2^6 .. 2^12
    assert Pow2(6) == 64 && Pow2(7) == 128 && Pow2(8) == 256 && Pow2(9) == 512;
    assert Pow2(10) == 1024 && Pow2(11) == 2048 && Pow2(12) == 4096;
    var k: nat :| 6 <= k <= 12 && Pow2(k) == Sets(sizeKb, assoc);
    ExponentIsPowerOfTwo(k);
  }

  /** Both cache parameters come from their lists (the source's `list.index` raises otherwise). */
  predicate InLists(c: Config) {
    c.l1dSize in L1D_SIZES && c.l1dAssoc in L1D_ASSOCS
  }

  /** A point the random sampler can produce: every count within its bounds, both cache parameters listed. */
  predicate InDomain(c: Config) {
    && InLists(c)
    && (forall u :: Lo(u) <= Count(c, u) <= Hi(u))
  }
}
