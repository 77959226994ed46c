/** Partitioning by hash, and which old partitions can hold keys of a new one. */
module Hash {
  /** The largest partition count the admin API admits. */
  const MAX_COUNT: nat := 1024

  const SUM_LIMIT: nat := 0x1_0000_0000

  predicate HashesTo(h: nat, count: nat, id: int)
    requires count > 0
  {
    h % count == id
  }

  /** Some hash value lands in partition p under the old count and in newID under the new count. */
  ghost predicate Meet(p: int, newID: nat, oldCount: nat, newCount: nat)
    requires oldCount > 0 && newCount > 0
  {
    exists h: nat :: HashesTo(h, oldCount, p) && HashesTo(h, newCount, newID)
  }

  function GcdOf(a: nat, b: nat): (g: nat)
    decreases b
  {
    if b == 0 then a else GcdOf(b, a % b)
  }

  // ----- arithmetic -----

  lemma SmallMultiple(d: int, m: nat)
    requires 0 - m < d * m < m
    ensures d == 0
  {
    MulMono(1, d, m);
    MulMono(d, -1, m);
  }

  lemma AddOnce(x: int, m: nat)
    requires m > 0
    ensures (x + m) % m == x % m
  {
    var q, q' := x / m, (x + m) / m;
    var d := q' - q - 1;
    MulDistribute(q', q, m);
    MulDistribute(q' - q, 1, m);
    assert d * m == x % m - (x + m) % m;
    SmallMultiple(d, m);
  }

  lemma {:induction false} AddMultiples(a: int, k: int, m: nat)
    requires m > 0
    ensures (a + k * m) % m == a % m
    decreases if k < 0 then -k else k
  {
    if k > 0 {
      AddMultiples(a, k - 1, m);
      MulDistribute(k - 1, 1, m);
      AddOnce(a + (k - 1) * m, m);
    } else if k < 0 {
      AddMultiples(a, k + 1, m);
      MulDistribute(k, 1, m);
      AddOnce(a + k * m, m);
    }
  }

  lemma Multiple(k: int, m: nat)
    requires m > 0
    ensures (k * m) % m == 0
  {
    AddMultiples(0, k, m);
  }

  lemma MulMono(a: int, b: int, g: nat)
    ensures a <= b ==> a * g <= b * g
  {}

  lemma MulAssoc(a: int, b: int, c: int)
    ensures a * (b * c) == (a * b) * c
  {}

  lemma MulDistribute(a: int, b: int, c: int)
    ensures (a + b) * c == a * c + b * c
    ensures (a - b) * c == a * c - b * c
    ensures c * (a + b) == c * a + c * b
  {}

  lemma SameResidue(a: int, b: int, g: nat) returns (k: int)
    requires g > 0 && a % g == b % g
    ensures b - a == k * g
  {
    k := b / g - a / g;
    MulDistribute(b / g, a / g, g);
  }

  /** One step of Euclid keeps a linear combination. */
  lemma BezoutStep(a: nat, b: nat, q: int, x: int, y: int)
    ensures x * b + y * (a - q * b) == y * a + (x - y * q) * b
  {
    MulAssoc(y, q, b);
    assert y * (a - q * b) == y * a - y * (q * b);
    MulDistribute(x, y * q, b);
  }

  /** One step of Euclid keeps the common divisors. */
  lemma DivisorStep(a: nat, b: nat, q: int, g: nat)
    requires g > 0 && b % g == 0 && (a - q * b) % g == 0
    ensures a % g == 0
  {
    var s := b / g;
    MulAssoc(q, s, g);
    assert a == (a - q * b) + (q * s) * g;
    AddMultiples(a - q * b, q * s, g);
  }

  lemma EuclidStep(a: nat, b: nat, g: nat, x: int, y: int)
    requires b > 0 && g > 0 && b % g == 0 && (a % b) % g == 0
    requires g == x * b + y * (a % b)
    ensures a % g == 0
    ensures g == y * a + (x - y * (a / b)) * b
  {
    var q := a / b;
    assert a % b == a - q * b;
    BezoutStep(a, b, q, x, y);
    DivisorStep(a, b, q, g);
  }

  /** Euclid's result divides both numbers and is a combination of them, so it is their gcd. */
  lemma {:induction false} GcdProperties(a: nat, b: nat) returns (x: int, y: int)
    requires a > 0 || b > 0
    ensures GcdOf(a, b) > 0
    ensures a % GcdOf(a, b) == 0 && b % GcdOf(a, b) == 0
    ensures GcdOf(a, b) == x * a + y * b
    decreases b
  {
    if b == 0 {
      x, y := 1, 0;
      Multiple(1, a);
    } else {
      var g := GcdOf(b, a % b);
      var x', y' := GcdProperties(b, a % b);
      EuclidStep(a, b, g, x', y');
      x, y := y', x' - y' * (a / b);
    }
  }

  // ----- the congruence argument -----

  /** A hash in both partitions forces p and newID to agree modulo the gcd. */
  lemma MeetImpliesCongruent(h: nat, p: nat, newID: nat, oldCount: nat, newCount: nat)
    requires oldCount > 0 && newCount > 0
    requires HashesTo(h, oldCount, p) && HashesTo(h, newCount, newID)
    ensures GcdOf(oldCount, newCount) > 0
    ensures p % GcdOf(oldCount, newCount) == newID % GcdOf(oldCount, newCount)
  {
    var g := GcdOf(oldCount, newCount);
    var _, _ := GcdProperties(oldCount, newCount);
    ResidueThroughMultiple(h, p, oldCount, g);
    ResidueThroughMultiple(h, newID, newCount, g);
  }

  lemma ResidueThroughMultiple(h: nat, p: int, count: nat, g: nat)
    requires count > 0 && g > 0 && count % g == 0 && h % count == p
    ensures h % g == p % g
  {
    assert count == (count / g) * g;
    assert h == (h / count) * count + p;
    ResidueOf(p, h / count, count / g, g);
  }

  lemma ResidueOf(p: int, q: int, c: int, g: nat)
    requires g > 0
    ensures (q * (c * g) + p) % g == p % g
  {
    MulAssoc(q, c, g);
    AddMultiples(p, q * c, g);
  }

  /** A number congruent to p modulo a and to n modulo b, from the two combinations. */
  lemma Combine(p: int, n: int, a: nat, b: nat, x: int, y: int, k: int) returns (z: int)
    requires a > 0 && b > 0 && n - p == k * (x * a + y * b)
    ensures z % a == p % a && z % b == n % b
  {
    z := p + (k * x) * a;
    MulDistribute(x * a, y * b, k);
    MulAssoc(k, x, a);
    MulAssoc(k, y, b);
    assert n == z + (k * y) * b;
    AddMultiples(p, k * x, a);
    AddMultiples(z, k * y, b);
  }

  /** Reducing modulo a multiple of c does not change the residue modulo c. */
  lemma Reduce(z: int, m: nat, f: nat, c: nat)
    requires c > 0 && m == f * c && m > 0
    ensures (z % m) % c == z % c
  {
    var q := z / m;
    MulAssoc(q, f, c);
    assert z == (z % m) + (q * f) * c;
    AddMultiples(z % m, q * f, c);
  }

  /** Conversely, congruent partitions share a hash below the least common multiple. */
  lemma Witness(p: nat, newID: nat, oldCount: nat, newCount: nat) returns (h: nat)
    requires p < oldCount && newID < newCount
    requires GcdOf(oldCount, newCount) > 0
    requires p % GcdOf(oldCount, newCount) == newID % GcdOf(oldCount, newCount)
    ensures HashesTo(h, oldCount, p) && HashesTo(h, newCount, newID)
    ensures h < oldCount / GcdOf(oldCount, newCount) * newCount
  {
    var g := GcdOf(oldCount, newCount);
    var x, y := GcdProperties(oldCount, newCount);
    var k := SameResidue(p, newID, g);
    h := SharedHash(p, newID, oldCount, newCount, g, x, y, k);
  }

  lemma SharedHash(p: nat, newID: nat, a: nat, b: nat, g: nat, x: int, y: int, k: int) returns (h: nat)
    requires p < a && newID < b && g > 0 && a % g == 0 && b % g == 0
    requires g == x * a + y * b && newID - p == k * g
    ensures h % a == p && h % b == newID && h < a / g * b
  {
    var z := Combine(p, newID, a, b, x, y, k);
    var o, n := a / g, b / g;
    LcmBothWays(o, n, g, a, b);
    h := ReduceBoth(z, o * b, o, n, a, b);
    SmallMod(p, a);
    SmallMod(newID, b);
  }

  lemma SmallMod(p: nat, a: nat)
    requires p < a
    ensures p % a == p
  {}

  lemma ReduceBoth(z: int, m: nat, o: nat, n: nat, a: nat, b: nat) returns (h: nat)
    requires a > 0 && b > 0 && m == o * b && m == n * a && m > 0
    ensures h < m && h % a == z % a && h % b == z % b
  {
    Reduce(z, m, o, b);
    Reduce(z, m, n, a);
    h := z % m;
  }

  lemma LcmBothWays(o: nat, n: nat, g: nat, a: nat, b: nat)
    requires a == o * g && b == n * g && a > 0 && b > 0
    ensures o * b == n * a && o * b > 0
  {
    MulAssoc(o, n, g);
    MulAssoc(n, o, g);
    assert o * b == (o * n) * g;
    assert o > 0;
    ProductPositive(o, b);
  }

  lemma ProductPositive(a: nat, b: nat)
    requires a > 0 && b > 0
    ensures a * b > 0
  {}

  /** For the counts the API admits, the shared hash is one the 32-bit hash function can return. */
  lemma WitnessFits(p: nat, newID: nat, oldCount: nat, newCount: nat) returns (h: nat)
    requires p < oldCount <= MAX_COUNT && newID < newCount <= MAX_COUNT
    requires Meet(p, newID, oldCount, newCount)
    ensures h < SUM_LIMIT && HashesTo(h, oldCount, p) && HashesTo(h, newCount, newID)
  {
    var any: nat :| HashesTo(any, oldCount, p) && HashesTo(any, newCount, newID);
    MeetImpliesCongruent(any, p, newID, oldCount, newCount);
    h := Witness(p, newID, oldCount, newCount);
    BoundedProduct(oldCount, GcdOf(oldCount, newCount), newCount);
  }

  lemma BoundedProduct(a: nat, g: nat, b: nat)
    requires g > 0 && a <= MAX_COUNT && b <= MAX_COUNT
    ensures a / g * b <= 1024 * 1024
  {
    QuotientAtMost(a, g);
    MulMono(a / g, 1024, b);
  }

  lemma QuotientAtMost(a: nat, g: nat)
    requires g > 0
    ensures a / g <= a
  {
    MulMono(1, g, a / g);
  }

  /** p can hold keys of newID iff the two agree modulo the gcd of the counts. */
  lemma MeetIffCongruent(p: nat, newID: nat, oldCount: nat, newCount: nat)
    requires p < oldCount && newID < newCount
    ensures GcdOf(oldCount, newCount) > 0
    ensures Meet(p, newID, oldCount, newCount) <==>
      p % GcdOf(oldCount, newCount) == newID % GcdOf(oldCount, newCount)
  {
    var g := GcdOf(oldCount, newCount);
    var _, _ := GcdProperties(oldCount, newCount);
    if p % g == newID % g {
      var h := Witness(p, newID, oldCount, newCount);
      assert HashesTo(h, oldCount, p);
    }
    if Meet(p, newID, oldCount, newCount) {
      var h: nat :| HashesTo(h, oldCount, p) && HashesTo(h, newCount, newID);
      MeetImpliesCongruent(h, p, newID, oldCount, newCount);
    }
  }

  // ----- the code -----

  method Gcd(a0: nat, b0: nat) returns (g: nat)
    ensures g == GcdOf(a0, b0)
  {
    var a, b := a0, b0;
    while b != 0
      invariant GcdOf(a, b) == GcdOf(a0, b0)
      decreases b
    {
      a, b := b, a % b;
    }
    g := a;
  }

  predicate InClass(q: nat, id: nat, g: nat)
    requires g > 0
  {
    q % g == id % g
  }

  /** p is in the gap that starts just after the n-th member of the class of r and ends at the next. */
  predicate AtGap(p: nat, r: nat, n: nat, g: nat) {
    r < g && p <= r + n * g && (n > 0 ==> r + n * g - g < p)
  }

  /** Walking up by one adds a member exactly at the end of a gap. */
  lemma NextInClass(p: nat, r: nat, n: nat, g: nat)
    requires AtGap(p, r, n, g)
    ensures AtGap(p + 1, r, if p % g == r then n + 1 else n, g)
  {
    if p == r + n * g {
      AddMultiples(r, n, g);
      SmallMod(r, g);
    }
    MulMono(n, p / g, g);
    MulMono(p / g, n - 1, g);
    MulDistribute(n, 1, g);
  }

  lemma CountInClass(n: nat, r: nat, g: nat, count: nat)
    requires AtGap(count, r, n, g) && count % g == 0
    ensures n == count / g
  {
    MulMono(n + 1, count / g, g);
    MulDistribute(n, 1, g);
    MulMono(count / g, n - 1, g);
  }

  /** The loop of SourcePartitions: the members of newID's residue class below oldCount. */
  method ClassMembers(newID: nat, oldCount: nat, g: nat) returns (sources: seq<nat>)
    requires oldCount > 0 ==> g > 0 && oldCount % g == 0
    ensures forall q: nat :: q in sources <==> q < oldCount && InClass(q, newID, g)
    ensures forall i, j :: 0 <= i < j < |sources| ==> sources[i] < sources[j]
    ensures oldCount > 0 ==> |sources| == oldCount / g
  {
    sources := [];
    if oldCount == 0 { return; }
    var p := 0;
    ghost var r := newID % g;
    while p < oldCount
      invariant p <= oldCount
      invariant forall i :: 0 <= i < |sources| ==> sources[i] < p && InClass(sources[i], newID, g)
      invariant forall q: nat :: q < p && InClass(q, newID, g) ==> q in sources
      invariant forall i, j :: 0 <= i < j < |sources| ==> sources[i] < sources[j]
      invariant AtGap(p, r, |sources|, g)
    {
      NextInClass(p, r, |sources|, g);
      if p % g == newID % g {
        sources := sources + [p];
      }
      p := p + 1;
    }
    CountInClass(|sources|, r, g, oldCount);
  }

  /**
   * The old partitions a new partition has to copy from: exactly those that share a hash with it,
   * each once and in order, oldCount / gcd of them.
   */
  method SourcePartitions(newID: nat, oldCount: nat, newCount: nat) returns (sources: seq<nat>)
    requires newID < newCount
    ensures forall p: nat :: p in sources <==> p < oldCount && Meet(p, newID, oldCount, newCount)
    ensures forall i, j :: 0 <= i < j < |sources| ==> sources[i] < sources[j]
    ensures oldCount > 0 ==> GcdOf(oldCount, newCount) > 0 && |sources| == oldCount / GcdOf(oldCount, newCount)
  {
    var g := Gcd(oldCount, newCount);
    var _, _ := GcdProperties(oldCount, newCount);
    sources := ClassMembers(newID, oldCount, g);
    forall q: nat | q < oldCount
      ensures InClass(q, newID, g) <==> Meet(q, newID, oldCount, newCount)
    {
      MeetIffCongruent(q, newID, oldCount, newCount);
    }
  }
}
