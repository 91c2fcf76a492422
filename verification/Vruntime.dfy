/** The arithmetic of virtual runtime: charging, and the weights of nice values. */
module Vruntime {
  import opened Basics

  const NICE_0_WEIGHT := 1024
  const TWO_TO_64 := 0x1_0000_0000_0000_0000

  /** The vruntime of a thread after it is charged for `elapsed` nanoseconds, in 64-bit
      unsigned arithmetic. */
  function Charged(vruntime: nat, elapsed: nat, weight: int): (v: nat)
    requires weight > 0
    ensures v < TWO_TO_64
  {
    (vruntime + ((elapsed * NICE_0_WEIGHT) % TWO_TO_64) / weight) % TWO_TO_64
  }

  /** now - start in 64-bit unsigned arithmetic. */
  function Elapsed(start: nat, now: nat): (d: nat)
    ensures start <= now < TWO_TO_64 ==> d == now - start
    ensures now < start < TWO_TO_64 ==> d == TWO_TO_64 - (start - now)
  {
    (now - start) % TWO_TO_64
  }

  /** A thread charged for one duration after another. */
  function ChargedAll(vruntime: nat, ds: seq<nat>, weight: int): (v: nat)
    requires weight > 0
    decreases |ds|
  {
    if ds == [] then vruntime else ChargedAll(Charged(vruntime, ds[0], weight), ds[1..], weight)
  }

  function Sum(ds: seq<nat>): (n: nat) {
    if ds == [] then 0 else ds[0] + Sum(ds[1..])
  }

  lemma DivMod(a: nat, w: int)
    requires w > 0
    ensures a == w * (a / w) + a % w && 0 <= a % w < w
  {
  }

  lemma Distribute(w: int, a: int, b: int)
    ensures w * (a + b) == w * a + w * b
  {
  }

  lemma Monotone(w: int, a: int, b: int)
    requires w >= 0 && a <= b
    ensures w * a <= w * b
  {
  }

  lemma Quotient(a: nat, w: int)
    requires w > 0
    ensures w * (a / w) <= a < w * (a / w + 1)
    ensures 0 <= a / w <= a
  {
    var q := a / w;
    DivMod(a, w);
    Distribute(w, q, 1);
    assert q >= 0 by {
      if q <= -1 {
        Monotone(w, q, -1);
      }
    }
    assert q <= w * q by {
      Monotone(q, 1, w);
    }
  }

  lemma Fits(x: nat)
    ensures x < TWO_TO_64 ==> x % TWO_TO_64 == x
  {
  }

  /** What one charge adds when nothing wraps. */
  function Share(d: nat, weight: int): (n: nat)
    requires weight > 0
  {
    Quotient(d * NICE_0_WEIGHT, weight);
    d * NICE_0_WEIGHT / weight
  }

  /** The total that charging adds when nothing wraps. */
  function Quotients(ds: seq<nat>, weight: int): (n: nat)
    requires weight > 0
  {
    if ds == [] then 0 else Share(ds[0], weight) + Quotients(ds[1..], weight)
  }

  predicate ProductsFit(ds: seq<nat>) {
    forall d :: d in ds ==> d * NICE_0_WEIGHT < TWO_TO_64
  }

  /** No product and no sum of the charges reaches 64 bits. */
  predicate InRange(vruntime: nat, ds: seq<nat>, weight: int)
    requires weight > 0
  {
    ProductsFit(ds) && vruntime + Quotients(ds, weight) < TWO_TO_64
  }

  lemma ProductsFitCons(ds: seq<nat>)
    requires ds != []
    ensures ProductsFit(ds) <==> ds[0] * NICE_0_WEIGHT < TWO_TO_64 && ProductsFit(ds[1..])
  {
    assert ds[0] in ds;
    forall d
      ensures d in ds <==> d == ds[0] || d in ds[1..]
    {
      assert ds == [ds[0]] + ds[1..];
    }
  }

  /** A charge within range adds the rounded quotient. */
  lemma ChargedInRange(vruntime: nat, ds: seq<nat>, weight: int)
    requires weight > 0 && ds != [] && InRange(vruntime, ds, weight)
    ensures Charged(vruntime, ds[0], weight) == vruntime + ds[0] * NICE_0_WEIGHT / weight
    ensures InRange(Charged(vruntime, ds[0], weight), ds[1..], weight)
  {
    var a := ds[0] * NICE_0_WEIGHT;
    assert ds[0] in ds;
    Fits(a);
    Quotient(a, weight);
    Fits(vruntime + a / weight);
    ProductsFitCons(ds);
  }

  /** Within range, charging adds exactly the quotients. */
  lemma {:induction false} ChargedSum(vruntime: nat, ds: seq<nat>, weight: int)
    requires weight > 0 && InRange(vruntime, ds, weight)
    ensures ChargedAll(vruntime, ds, weight) == vruntime + Quotients(ds, weight)
    decreases |ds|
  {
    if ds != [] {
      ChargedInRange(vruntime, ds, weight);
      ChargedSum(Charged(vruntime, ds[0], weight), ds[1..], weight);
    }
  }

  /** The quotients, scaled by the weight, fall short of the time charged by less than n roundings. */
  lemma {:induction false} QuotientsTotal(ds: seq<nat>, weight: int)
    requires weight > 0
    ensures weight * Quotients(ds, weight) <= Sum(ds) * NICE_0_WEIGHT
    ensures ds != [] ==> Sum(ds) * NICE_0_WEIGHT < weight * (Quotients(ds, weight) + |ds|)
  {
    if ds != [] {
      var a := ds[0] * NICE_0_WEIGHT;
      var q, rest := a / weight, Quotients(ds[1..], weight);
      Quotient(a, weight);
      QuotientsTotal(ds[1..], weight);
      Distribute(weight, q, rest);
      Distribute(weight, q + 1, rest + |ds| - 1);
    }
  }

  /** Over any n charges within range the total added, scaled by the weight, is at most the
      time charged and less than n roundings below it. */
  lemma {:induction false} ChargeTotal(vruntime: nat, ds: seq<nat>, weight: int)
    requires weight > 0 && InRange(vruntime, ds, weight)
    ensures var added := ChargedAll(vruntime, ds, weight) - vruntime;
      && weight * added <= Sum(ds) * NICE_0_WEIGHT
      && (ds != [] ==> Sum(ds) * NICE_0_WEIGHT < weight * (added + |ds|))
      && (ds == [] ==> added == 0)
  {
    ChargedSum(vruntime, ds, weight);
    QuotientsTotal(ds, weight);
  }

  /** The same bound on the quotients themselves. */
  lemma {:induction false} ChargeRounding(vruntime: nat, ds: seq<nat>, weight: int)
    requires weight > 0 && ds != [] && InRange(vruntime, ds, weight)
    ensures var exact := Sum(ds) * NICE_0_WEIGHT / weight;
      var added := ChargedAll(vruntime, ds, weight) - vruntime;
      exact - |ds| < added <= exact
  {
    var total := Sum(ds) * NICE_0_WEIGHT;
    var added := ChargedAll(vruntime, ds, weight) - vruntime;
    ChargeTotal(vruntime, ds, weight);
    Quotient(total, weight);
    Between(weight, added, total / weight + 1);
    Between(weight, total / weight, added + |ds|);
  }

  lemma Between(w: int, a: int, b: int)
    requires w > 0 && w * a < w * b
    ensures a < b
  {
    if b <= a {
      Monotone(w, b, a);
    }
  }

  // ---------------------------------------------------------------- what ticks charge

  /** The time from switching to a thread to the last of its ticks, which come at these offsets. */
  function Span(offsets: seq<nat>): (d: nat) {
    if offsets == [] then 0 else offsets[|offsets| - 1]
  }

  /** Each tick charges the whole time since the switch, and so does a yield after it. What is charged
      is the time used if and only if that happens at most once. */
  lemma {:induction false} TicksOvercharge(offsets: seq<nat>)
    requires forall i :: 0 <= i < |offsets| ==> 0 < offsets[i]
    ensures Sum(offsets) >= Span(offsets)
    ensures Sum(offsets) == Span(offsets) <==> |offsets| <= 1
  {
    if |offsets| == 1 {
      assert Sum(offsets[1..]) == 0;
    } else if offsets != [] {
      TicksOvercharge(offsets[1..]);
      assert Span(offsets[1..]) == Span(offsets);
    }
  }

  /** The offsets of n ticks with period d. */
  function Even(d: nat, n: nat): (offsets: seq<nat>)
    ensures |offsets| == n
  {
    if n == 0 then [] else Even(d, n - 1) + [n * d]
  }

  lemma {:induction false} SumSnoc(ds: seq<nat>, d: nat)
    ensures Sum(ds + [d]) == Sum(ds) + d
  {
    if ds == [] {
      assert ds + [d] == [d] && [d][1..] == [];
    } else {
      assert (ds + [d])[1..] == ds[1..] + [d];
      SumSnoc(ds[1..], d);
    }
  }

  /** With n evenly spaced ticks the time charged is (n + 1) / 2 times the time used. */
  lemma {:induction false} EvenTicksCharge(d: nat, n: nat)
    ensures Span(Even(d, n)) == n * d && 2 * Sum(Even(d, n)) == (n + 1) * Span(Even(d, n))
  {
    if n > 0 {
      EvenTicksCharge(d, n - 1);
      SumSnoc(Even(d, n - 1), n * d);
      OneMore(d, n);
    }
  }

  lemma OneMore(d: nat, n: nat)
    ensures n * ((n - 1) * d) + 2 * (n * d) == (n + 1) * (n * d)
  {
    var x := n * d;
    assert (n - 1) * d == x - d;
    assert n * (x - d) == n * x - x;
    assert (n + 1) * x == n * x + x;
  }

  /** At nice 0 the quotients do not round, so this is what happens to the vruntime itself. */
  lemma {:induction false} NormalQuotients(ds: seq<nat>)
    ensures Quotients(ds, NICE_0_WEIGHT) == Sum(ds)
  {
    if ds != [] {
      NormalQuotients(ds[1..]);
    }
  }

  lemma TicksOverchargeNormal(vruntime: nat, offsets: seq<nat>)
    requires offsets != [] && forall i :: 0 <= i < |offsets| ==> 0 < offsets[i]
    requires InRange(vruntime, offsets, NICE_0_WEIGHT)
    ensures ChargedAll(vruntime, offsets, NICE_0_WEIGHT) == vruntime + Span(offsets) <==> |offsets| == 1
  {
    ChargedSum(vruntime, offsets, NICE_0_WEIGHT);
    NormalQuotients(offsets);
    TicksOvercharge(offsets);
  }

  // ---------------------------------------------------------------- time slices

  const TARGET_LATENCY := 20_000_000
  const MIN_GRANULARITY := 1_000_000

  /** The products of the slice formula stay within the code's int. */
  predicate SliceFits(weight: int, count: int) {
    0 < weight && TARGET_LATENCY * weight <= INT_MAX && 0 < count && count * NICE_0_WEIGHT <= INT_MAX
  }

  /** The share of the target latency by weight among count threads, and at least the granularity. */
  function Slice(weight: int, count: int): (ns: nat)
    requires SliceFits(weight, count)
    ensures ns >= MIN_GRANULARITY
  {
    var share := LatencyShare(weight, count);
    if share < MIN_GRANULARITY then MIN_GRANULARITY else share
  }

  function LatencyShare(weight: int, count: int): (ns: nat)
    requires SliceFits(weight, count)
  {
    Quotient(TARGET_LATENCY * weight, count * NICE_0_WEIGHT);
    TARGET_LATENCY * weight / (count * NICE_0_WEIGHT)
  }

  /** The products fit exactly for weights up to 107, far below the weight of nice 0. */
  lemma SliceFitsExactly(weight: int, count: int)
    requires 0 < weight && 0 < count <= 1024
    ensures SliceFits(weight, count) <==> weight <= 107
    ensures !SliceFits(NiceToWeight(0), count)
  {
  }

  /** The slice times the weight of all, count times the normal one, is the latency times the weight of
      the thread, rounded down; unless that is shorter than the granularity. */
  lemma SliceIsShare(weight: int, count: int)
    requires SliceFits(weight, count)
    ensures var all, ns := count * NICE_0_WEIGHT, Slice(weight, count);
      if TARGET_LATENCY * weight >= all * MIN_GRANULARITY
      then all * ns <= TARGET_LATENCY * weight < all * (ns + 1)
      else ns == MIN_GRANULARITY
  {
    var all, share := count * NICE_0_WEIGHT, LatencyShare(weight, count);
    Quotient(TARGET_LATENCY * weight, all);
    if TARGET_LATENCY * weight >= all * MIN_GRANULARITY {
      Between(all, MIN_GRANULARITY, share + 1);
    } else {
      Between(all, share, MIN_GRANULARITY);
    }
  }

  /** Among as many threads a heavier one never gets a shorter slice, and with more threads no thread
      gets a longer one. */
  lemma SliceGrows(weight: int, count: int, weight': int, count': int)
    requires SliceFits(weight, count) && SliceFits(weight', count') && weight <= weight' && count' <= count
    ensures Slice(weight, count) <= Slice(weight', count')
  {
    var a, a' := TARGET_LATENCY * weight, TARGET_LATENCY * weight';
    var d, d' := count * NICE_0_WEIGHT, count' * NICE_0_WEIGHT;
    Quotient(a, d);
    Quotient(a', d');
    Lighter(a / d, d, d');
    Between(d', a / d, a' / d' + 1);
  }

  // ---------------------------------------------------------------- nice values

  const WEIGHTS := [
    88761, 71755, 56483, 46273, 36291, 29154, 23254, 18705, 14949, 11916,
    9548, 7620, 6100, 4904, 3906, 3121, 2501, 1991, 1586, 1277,
    1024, 820, 655, 526, 423, 335, 272, 215, 172, 137,
    110, 87, 70, 56, 45, 36, 29, 23, 18, 15]

  /** The table index of a nice value, clamped to -20..19. */
  function NiceIndex(nice: int): (i: nat)
    ensures i < 40
  {
    if nice < -20 then 0 else if nice > 19 then 39 else nice + 20
  }

  function NiceToWeight(nice: int): (w: int)
    ensures 15 <= w <= 88761
  {
    WEIGHTS[NiceIndex(nice)]
  }

  /** A nice value of 0 has the normal weight, so that at nice 0 vruntime is time; and each step of nice
      changes the weight by a factor of about 1.25. */
  lemma NiceScale(nice: int)
    requires -20 <= nice < 19
    ensures NiceToWeight(0) == NICE_0_WEIGHT
    ensures 120 * NiceToWeight(nice + 1) <= 100 * NiceToWeight(nice) <= 128 * NiceToWeight(nice + 1)
  {
    NiceNormal();
    AtLeast(nice + 20);
    AtMost(nice + 20);
  }

  lemma NiceNormal()
    ensures NiceToWeight(0) == NICE_0_WEIGHT
  {
  }

  lemma AtLeast(i: nat)
    requires i < 39
    ensures 120 * WEIGHTS[i + 1] <= 100 * WEIGHTS[i]
  {
  }

  lemma AtMost(i: nat)
    requires i < 39
    ensures 100 * WEIGHTS[i] <= 128 * WEIGHTS[i + 1]
  {
  }

  lemma WeightsFallNext(i: nat)
    requires i < 39
    ensures WEIGHTS[i] > WEIGHTS[i + 1]
  {
  }

  lemma {:induction false} WeightsFallAlong(i: nat, j: nat)
    requires i < j < 40
    ensures WEIGHTS[i] > WEIGHTS[j]
  {
    WeightsFallNext(j - 1);
    if i < j - 1 {
      WeightsFallAlong(i, j - 1);
    }
  }

  /** Nicer threads weigh less. */
  lemma WeightsFall(nice: int, nicer: int)
    requires nice <= nicer
    ensures NiceToWeight(nice) >= NiceToWeight(nicer)
    ensures -20 <= nice < nicer <= 19 ==> NiceToWeight(nice) > NiceToWeight(nicer)
  {
    if NiceIndex(nice) < NiceIndex(nicer) {
      WeightsFallAlong(NiceIndex(nice), NiceIndex(nicer));
    } else {
      assert NiceIndex(nice) == NiceIndex(nicer);
    }
  }

  lemma QuotientFalls(a: nat, w: int, w': int)
    requires 0 < w' <= w
    ensures a / w <= a / w'
  {
    Quotient(a, w);
    Quotient(a, w');
    Lighter(a / w, w, w');
    Between(w', a / w, a / w' + 1);
  }

  lemma Lighter(q: int, w: int, w': int)
    requires 0 <= q && w' <= w
    ensures w' * q <= w * q
  {
    Monotone(q, w', w);
  }

  lemma {:induction false} QuotientsFall(ds: seq<nat>, w: int, w': int)
    requires 0 < w' <= w
    ensures Quotients(ds, w) <= Quotients(ds, w')
  {
    if ds != [] {
      QuotientFalls(ds[0] * NICE_0_WEIGHT, w, w');
      QuotientsFall(ds[1..], w, w');
    }
  }

  /** What is in range for the lighter thread is in range for the heavier one, which accrues less. */
  lemma HeavierAccruesLess(v: nat, u: nat, ds: seq<nat>, w: int, w': int)
    requires 0 < w' <= w && v <= u && InRange(u, ds, w')
    ensures InRange(v, ds, w) && ChargedAll(v, ds, w) <= ChargedAll(u, ds, w')
  {
    QuotientsFall(ds, w, w');
    ChargedSum(v, ds, w);
    ChargedSum(u, ds, w');
  }

  /** For the same durations within range, a thread with a lower nice value never accrues more
      vruntime than one with a higher nice value. */
  lemma {:induction false} LowerNiceAccruesLess(v: nat, ds: seq<nat>, nice: int, nicer: int)
    requires nice <= nicer && InRange(v, ds, NiceToWeight(nicer))
    ensures ChargedAll(v, ds, NiceToWeight(nice)) <= ChargedAll(v, ds, NiceToWeight(nicer))
  {
    WeightsFall(nice, nicer);
    HeavierAccruesLess(v, v, ds, NiceToWeight(nice), NiceToWeight(nicer));
  }

  // ---------------------------------------------------------------- the range is exact

  /** A product that wraps loses at least one from the quotient. */
  lemma WrapLoses(a: nat, w: int)
    requires 0 < w <= TWO_TO_64 <= a
    ensures (a % TWO_TO_64) / w < a / w
  {
    var b := a % TWO_TO_64;
    assert b <= a - TWO_TO_64;
    Quotient(a, w);
    Quotient(b, w);
    Distribute(w, b / w, 1);
    Between(w, b / w + 1, a / w + 1);
  }

  /** One charge never adds more than the quotient, and adds it exactly when nothing wraps. */
  lemma ChargedAtMost(v: nat, d: nat, w: int)
    requires 0 < w <= TWO_TO_64
    ensures var exact := v + Share(d, w);
      && Charged(v, d, w) <= exact
      && (Charged(v, d, w) == exact <==> d * NICE_0_WEIGHT < TWO_TO_64 && exact < TWO_TO_64)
  {
    var a := d * NICE_0_WEIGHT;
    Quotient(a, w);
    Quotient(a % TWO_TO_64, w);
    if a >= TWO_TO_64 {
      WrapLoses(a, w);
    } else {
      Fits(a);
    }
    Fits(v + (a % TWO_TO_64) / w);
  }

  /** The first charge of a sequence, and what is left to charge. */
  lemma FirstCharge(v: nat, ds: seq<nat>, w: int) returns (c: nat, q: nat)
    requires 0 < w <= TWO_TO_64 && ds != []
    ensures ChargedAll(v, ds, w) == ChargedAll(c, ds[1..], w) && Quotients(ds, w) == q + Quotients(ds[1..], w)
    ensures c < TWO_TO_64 && c <= v + q
    ensures c == v + q <==> ds[0] * NICE_0_WEIGHT < TWO_TO_64 && v + q < TWO_TO_64
  {
    var d := ds[0];
    ChargedAtMost(v, d, w);
    c, q := Charged(v, d, w), Share(d, w);
  }

  /** Charging never adds more than the quotients, and adds them exactly when nothing wraps. */
  ghost predicate Exact(v: nat, r: nat, q: nat, fits: bool) {
    r <= v + q && (r == v + q <==> fits && v + q < TWO_TO_64)
  }

  lemma {:induction false} ChargesExact(v: nat, ds: seq<nat>, w: int)
    requires 0 < w <= TWO_TO_64 && v < TWO_TO_64
    ensures Exact(v, ChargedAll(v, ds, w), Quotients(ds, w), ProductsFit(ds))
    decreases |ds|
  {
    if ds != [] {
      var c, q := FirstCharge(v, ds, w);
      ChargesExact(c, ds[1..], w);
      ProductsFitCons(ds);
      Combine(v, q, Quotients(ds[1..], w), c, ChargedAll(c, ds[1..], w),
              ds[0] * NICE_0_WEIGHT < TWO_TO_64, ProductsFit(ds[1..]));
    }
  }

  /** Two stages that never add too much add the right amount exactly when both do. */
  lemma Combine(v: nat, q: nat, q': nat, c: nat, r: nat, fits: bool, restFits: bool)
    requires Exact(v, c, q, fits) && Exact(c, r, q', restFits)
    ensures Exact(v, r, q + q', fits && restFits)
  {
  }

  /** The code adds exactly the quotients if and only if the charges are within range. */
  lemma RangeExact(v: nat, ds: seq<nat>, w: int)
    requires 0 < w <= TWO_TO_64 && v < TWO_TO_64
    ensures ChargedAll(v, ds, w) == v + Quotients(ds, w) <==> InRange(v, ds, w)
  {
    ChargesExact(v, ds, w);
  }

  /** A charge that takes the vruntime past 64 bits puts the thread behind where it was. */
  lemma ChargeWraps(v: nat, d: nat, w: int)
    requires 0 < w && v < TWO_TO_64 && d * NICE_0_WEIGHT < TWO_TO_64 <= v + Share(d, w)
    ensures Charged(v, d, w) == v + Share(d, w) - TWO_TO_64 < v
  {
    Fits(d * NICE_0_WEIGHT);
    Quotient(d * NICE_0_WEIGHT, w);
  }

  /** A duration of 2^54 nanoseconds more charges nothing more. */
  lemma ProductWraps(v: nat, d: nat, w: int)
    requires 0 < w
    ensures Charged(v, d + TWO_TO_64 / NICE_0_WEIGHT, w) == Charged(v, d, w)
  {
    OneRound(d * NICE_0_WEIGHT);
  }

  lemma OneRound(a: nat)
    ensures (a + TWO_TO_64) % TWO_TO_64 == a % TWO_TO_64
  {
  }
}
