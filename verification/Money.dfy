/** Paise-to-rupee rounding and the bigint-to-double conversion of amounts. */
module Money {
  // The first integer past which a double no longer has a unit step (2^53).
  const DOUBLE_UNIT_LIMIT: nat := 0x20_0000_0000_0000

  // -------------------------------------------------------------------------
  // Quote totals
  // -------------------------------------------------------------------------

  /** Half-up rounding of an amount in paise to whole rupees. */
  function RoundRupees(paise: nat): nat {
    (paise + 50) / 100
  }

  function Sum(prices: seq<nat>): nat {
    if prices == [] then 0 else prices[0] + Sum(prices[1..])
  }

  /** Total of a quote: every line is rounded, then the lines are added. */
  function QuoteTotal(prices: seq<nat>): nat {
    if prices == [] then 0 else RoundRupees(prices[0]) + QuoteTotal(prices[1..])
  }

  /** Total of a created booking: the stored sum is rounded once. */
  function CreatedTotal(prices: seq<nat>): nat {
    RoundRupees(Sum(prices))
  }

  /** Rounding every line gains at most 50 and loses at most 49 paise a line. */
  lemma {:induction false} LineRoundingDrift(prices: seq<nat>)
    ensures -49 * |prices| <= 100 * QuoteTotal(prices) - Sum(prices) <= 50 * |prices|
  {
    if prices == [] {
    } else {
      LineRoundingDrift(prices[1..]);
    }
  }

  lemma {:induction false} QuoteTotalNearCreatedTotal(prices: seq<nat>)
    ensures -(|prices| / 2) <= QuoteTotal(prices) - CreatedTotal(prices) <= |prices| / 2
  {
    LineRoundingDrift(prices);
  }

  function Repeat(price: nat, n: nat): seq<nat> {
    if n == 0 then [] else [price] + Repeat(price, n - 1)
  }

  /** The bound is reached for every number of lines, all priced 50 paise. */
  lemma {:induction false} QuoteDriftIsTight(n: nat)
    ensures |Repeat(50, n)| == n
    ensures QuoteTotal(Repeat(50, n)) - CreatedTotal(Repeat(50, n)) == n / 2
  {
    FiftyPaiseLines(n);
  }

  lemma {:induction false} FiftyPaiseLines(n: nat)
    ensures |Repeat(50, n)| == n
    ensures Sum(Repeat(50, n)) == 50 * n && QuoteTotal(Repeat(50, n)) == n
  {
    if n == 0 {
    } else {
      FiftyPaiseLines(n - 1);
      assert Repeat(50, n)[1..] == Repeat(50, n - 1);
    }
  }

  lemma {:induction false} WholeRupeePricesAgree(prices: seq<nat>)
    requires forall i :: 0 <= i < |prices| ==> prices[i] % 100 == 0
    ensures QuoteTotal(prices) == CreatedTotal(prices) && 100 * QuoteTotal(prices) == Sum(prices)
  {
    if prices != [] {
      WholeRupeePricesAgree(prices[1..]);
      WholeRupees(prices[0], QuoteTotal(prices[1..]));
    }
  }

  lemma WholeRupees(price: nat, rest: nat)
    requires price % 100 == 0
    ensures 100 * RoundRupees(price) == price && RoundRupees(price + 100 * rest) == RoundRupees(price) + rest
  {
    var q := price / 100;
    assert price == 100 * q;
    assert (100 * q + 50) / 100 == q;
    assert (100 * (q + rest) + 50) / 100 == q + rest;
  }

  // -------------------------------------------------------------------------
  // Amounts sent to the gateway
  // -------------------------------------------------------------------------

  /** Spacing of the doubles around n. */
  function Spacing(n: nat): (u: nat)
    ensures 1 <= u
  {
    if n < DOUBLE_UNIT_LIMIT then 1 else 2 * Spacing(n / 2)
  }

  function Power(n: nat): nat {
    if n == 0 then 1 else 2 * Power(n - 1)
  }

  /** The spacing is a power of two, and n has 53 bits in units of it if it has as many at all. */
  lemma {:induction false} SpacingFits(n: nat) returns (k: nat)
    ensures Spacing(n) == Power(k)
    ensures n < Spacing(n) * DOUBLE_UNIT_LIMIT
    ensures n < DOUBLE_UNIT_LIMIT ==> k == 0
    ensures DOUBLE_UNIT_LIMIT <= n ==> Spacing(n) * DOUBLE_UNIT_LIMIT <= 2 * n
  {
    if n < DOUBLE_UNIT_LIMIT {
      k := 0;
    } else {
      k := SpacingFits(n / 2);
      k := k + 1;
    }
  }

  /** The double nearest to n, ties to the even neighbour. */
  function ToNumber(n: nat): nat {
    var u := Spacing(n);
    var q, r := n / u, n % u;
    if 2 * r < u || (2 * r == u && q % 2 == 0) then q * u else (q + 1) * u
  }

  /** An amount survives the conversion exactly when it is a multiple of the spacing. */
  lemma ToNumberExactIff(n: nat)
    ensures ToNumber(n) == n <==> n % Spacing(n) == 0
  {
    var u := Spacing(n);
    var q, r := n / u, n % u;
    assert n == q * u + r;
    assert (q + 1) * u == q * u + u;
  }

  /** The conversion yields a nearest representable amount, and between two equally
      near ones the even multiple of the spacing. */
  lemma ToNumberIsNearest(n: nat, other: int) returns (m: nat)
    ensures ToNumber(n) == m * Spacing(n)
    ensures Distance(n, ToNumber(n)) <= Distance(n, other * Spacing(n))
    ensures 2 * Distance(n, ToNumber(n)) == Spacing(n) ==> m % 2 == 0
  {
    var u := Spacing(n);
    var q, r, down := DivideBySpacing(n);
    MultipleBelowOrAbove(q, other, u);
    NearestOfTwo(n, u, q * u, r, down, other * u);
    m := if down then q else q + 1;
  }

  /** How the conversion rounds, with the products written out. */
  lemma DivideBySpacing(n: nat) returns (q: nat, r: nat, down: bool)
    ensures var u := Spacing(n);
            && n == q * u + r && r < u
            && ToNumber(n) == (if down then q * u else q * u + u)
            && ToNumber(n) == (if down then q else q + 1) * u
            && (if down then 2 * r <= u else u <= 2 * r)
            && (2 * r == u ==> (if down then q else q + 1) % 2 == 0)
  {
    var u := Spacing(n);
    q, r := n / u, n % u;
    down := 2 * r < u || (2 * r == u && q % 2 == 0);
    assert n == q * u + r;
    assert (q + 1) * u == q * u + u;
  }

  lemma NearestOfTwo(n: nat, u: nat, below: nat, r: nat, down: bool, other: int)
    requires n == below + r && r < u && (other <= below || below + u <= other)
    requires if down then 2 * r <= u else u <= 2 * r
    ensures Distance(n, if down then below else below + u) <= Distance(n, other)
    ensures 2 * Distance(n, if down then below else below + u) == u ==> 2 * r == u
  {
  }

  lemma MultipleBelowOrAbove(q: int, other: int, u: nat)
    ensures other * u <= q * u || q * u + u <= other * u
  {
    if other < q {
      MultiplesApart(other, q, u);
    } else if q < other {
      MultiplesApart(q, other, u);
    }
  }

  function Distance(a: int, b: int): nat {
    if a < b then b - a else a - b
  }

  lemma {:induction false} MultiplesApart(a: int, b: int, u: nat)
    requires a < b
    ensures a * u + u <= b * u
    decreases b - a
  {
    assert b * u == (b - 1) * u + u;
    if a < b - 1 {
      MultiplesApart(a, b - 1, u);
    }
  }

  /** Every total up to 2^53 is exact, and 2^53 + 1 is the first that is not. */
  lemma ToNumberExactRange(n: nat)
    ensures n <= DOUBLE_UNIT_LIMIT ==> ToNumber(n) == n
    ensures n == DOUBLE_UNIT_LIMIT + 1 ==> ToNumber(n) == DOUBLE_UNIT_LIMIT
  {
    if n < DOUBLE_UNIT_LIMIT {
      ToNumberExactIff(n);
    } else if n <= DOUBLE_UNIT_LIMIT + 1 {
      assert n / 2 < DOUBLE_UNIT_LIMIT;
      assert Spacing(n / 2) == 1;
    }
  }
}
