/**
  Sums of JavaScript numbers: integers as IEEE 754 doubles (53-bit significand, round to
  nearest, ties to even). The exponent is unbounded here; a sum that would be infinite exceeds
  every guard just as well.
 */
module JsNumber {
  import opened Prelude

  /** 2^53: every smaller natural number is a double. */
  const TWO53: nat := MAX_SAFE_INTEGER + 1

  /** Distance between neighbouring doubles at n. */
  function Ulp(n: nat): (u: nat)
    ensures u >= 1
    ensures n >= TWO53 ==> u >= 2
  {
    if n < TWO53 then 1 else 2 * Ulp(n / 2)
  }

  /** The double nearest to n, the even one of two. */
  function Round(n: nat): nat {
    var (u, q, r) := (Ulp(n), n / Ulp(n), n % Ulp(n));
    if 2 * r < u || (2 * r == u && q % 2 == 0) then q * u else (q + 1) * u
  }

  /** a + b on doubles. */
  function Add(a: nat, b: nat): nat {
    Round(a + b)
  }

  lemma RoundExact(n: nat)
    requires n < TWO53
    ensures Round(n) == n
  {
  }

  lemma HalfQuotient(n: nat, u: nat)
    requires u >= 1
    ensures n / (2 * u) == n / 2 / u
  {
    var (q, r) := (n / 2 / u, n / 2 % u);
    assert n / 2 == q * u + r;
    assert n == 2 * (q * u + r) + n % 2;
    assert 2 * (q * u) == q * (2 * u);
    QuotientIs(n, 2 * u, q, 2 * r + n % 2);
  }

  lemma QuotientIs(n: nat, d: nat, q: nat, r: nat)
    requires 0 <= r < d && n == q * d + r
    ensures n / d == q
  {
    var k: int := n / d - q;
    assert k * d == r - n % d by {
      assert n == n / d * d + n % d;
      assert k * d == n / d * d - q * d;
    }
    AtLeastOnce(k, d);
  }

  lemma AtLeastOnce(k: int, d: int)
    requires d >= 0
    ensures k >= 1 ==> k * d >= d
    ensures k <= -1 ==> k * d <= -d
  {
    if k >= 1 {
      assert (k - 1) * d >= 0;
      assert (k - 1) * d == k * d - d;
    } else if k <= -1 {
      assert (-k - 1) * d >= 0;
      assert (-k - 1) * d == -(k * d) - d;
    }
  }

  /** Beyond 2^53 a number still spans at least 2^52 neighbour distances. */
  lemma {:induction false} FullSignificand(n: nat)
    requires n >= TWO53
    ensures n / Ulp(n) >= TWO53 / 2
  {
    HalfQuotient(n, Ulp(n / 2));
    if n / 2 >= TWO53 {
      FullSignificand(n / 2);
    }
  }

  /** A number from 2^53 on never rounds back below it. */
  lemma RoundStaysLarge(n: nat)
    requires n >= TWO53
    ensures Round(n) >= TWO53
  {
    FullSignificand(n);
    hide Ulp;
    Doubled(n / Ulp(n), Ulp(n));
  }

  lemma Doubled(q: nat, u: nat)
    requires q >= TWO53 / 2 && u >= 2
    ensures q * u >= TWO53 && (q + 1) * u >= TWO53
  {
    assert q * u >= q * 2;
    assert (q + 1) * u == q * u + u;
  }

  /** Rounding is to the nearest multiple of the neighbour distance, to the even one on a tie. */
  lemma RoundIsNearest(n: nat)
    ensures Round(n) % Ulp(n) == 0
    ensures 2 * Round(n) <= 2 * n + Ulp(n) && 2 * n <= 2 * Round(n) + Ulp(n)
    ensures 2 * (Round(n) - n) == Ulp(n) || 2 * (n - Round(n)) == Ulp(n) ==> Round(n) / Ulp(n) % 2 == 0
  {
    hide Ulp;
    var (u, q) := (Ulp(n), n / Ulp(n));
    Nearest(n, u);
    Multiple(q, u);
    Multiple(q + 1, u);
  }

  lemma Nearest(n: nat, u: nat)
    requires u >= 1
    ensures n == n / u * u + n % u && (n / u + 1) * u == n / u * u + u
  {
  }

  lemma Multiple(q: nat, u: nat)
    requires u >= 1
    ensures q * u % u == 0 && q * u / u == q
  {
    QuotientIs(q * u, u, q, 0);
    assert q * u == q * u / u * u + q * u % u;
  }

  /** Comparing a safe integer with a sum of two is exact even where the sum is rounded. */
  lemma ComparesExactly(value: nat, a: nat, b: nat)
    requires value <= MAX_SAFE_INTEGER
    ensures value < Add(a, b) <==> value < a + b
  {
    hide Round;
    if a + b < TWO53 {
      RoundExact(a + b);
    } else {
      RoundStaysLarge(a + b);
    }
  }

  // ----- Accumulating payouts -----

  const MINER_FEE: nat := 1_100_000

  /** totalPayout after the first k amounts, added up as doubles. */
  function Accumulated(amounts: seq<nat>, k: nat): nat
    requires k <= |amounts|
  {
    if k == 0 then 0 else Add(Accumulated(amounts, k - 1), amounts[k - 1])
  }

  lemma SumStep(amounts: seq<nat>, k: nat)
    requires 0 < k <= |amounts|
    ensures Sum(amounts[..k]) == Sum(amounts[..k - 1]) + amounts[k - 1]
  {
    assert amounts[..k][..k - 1] == amounts[..k - 1];
  }

  /** The running sum is exact as long as it is below 2^53, and otherwise stays at or above it. */
  lemma {:induction false} ExactOrLarge(amounts: seq<nat>, k: nat)
    requires k <= |amounts|
    ensures Sum(amounts[..k]) < TWO53 ==> Accumulated(amounts, k) == Sum(amounts[..k])
    ensures Sum(amounts[..k]) >= TWO53 ==> Accumulated(amounts, k) >= TWO53
  {
    hide Round;
    if k > 0 {
      ExactOrLarge(amounts, k - 1);
      SumStep(amounts, k);
      var sum := Accumulated(amounts, k - 1) + amounts[k - 1];
      if sum < TWO53 {
        RoundExact(sum);
      } else {
        RoundStaysLarge(sum);
      }
    }
  }

  lemma {:induction false} SumGrows(amounts: seq<nat>, j: nat, k: nat)
    requires j <= k <= |amounts|
    ensures Sum(amounts[..j]) <= Sum(amounts[..k])
  {
    if j < k {
      SumGrows(amounts, j, k - 1);
      SumStep(amounts, k);
    }
  }

  /** If the guard on the final sum passes, no partial sum was rounded. */
  lemma NoPartialSumRounded(amounts: seq<nat>, k: nat)
    requires k <= |amounts| && Accumulated(amounts, |amounts|) <= MAX_SAFE_INTEGER - MINER_FEE
    ensures Accumulated(amounts, k) == Sum(amounts[..k])
    ensures Accumulated(amounts, |amounts|) == Sum(amounts)
  {
    hide Accumulated, Sum;
    ExactOrLarge(amounts, |amounts|);
    ExactOrLarge(amounts, k);
    SumGrows(amounts, k, |amounts|);
    assert amounts[..|amounts|] == amounts;
  }

  /** The accumulation of prepareBatchClaims with its guard: it gives the exact total, and
      throws exactly when an amount is no safe integer or total and fee together are not one. */
  method AccumulatePayouts(amounts: seq<nat>) returns (total: Option<nat>)
    ensures total.Some? <==> (forall i :: 0 <= i < |amounts| ==> amounts[i] <= MAX_SAFE_INTEGER)
                             && Sum(amounts) + MINER_FEE <= MAX_SAFE_INTEGER
    ensures total.Some? ==> total.value == Sum(amounts)
  {
    hide Add, Sum;
    var sum: nat := 0;
    for i := 0 to |amounts|
      invariant sum == Accumulated(amounts, i)
      invariant forall j :: 0 <= j < i ==> amounts[j] <= MAX_SAFE_INTEGER
    {
      if amounts[i] > MAX_SAFE_INTEGER {
        return None;
      }
      sum := Add(sum, amounts[i]);
    }
    ExactOrLarge(amounts, |amounts|);
    assert amounts[..|amounts|] == amounts;
    if sum > MAX_SAFE_INTEGER - MINER_FEE {
      return None;
    }
    return Some(sum);
  }
}
