/** The two number representations that token counts pass through: the 64-bit integers of
    Go and Redis, and the IEEE 754 double that is Lua's only number. */
module LuaNumber {

  const TWO53 := 0x20_0000_0000_0000
  const TWO63 := 0x8000_0000_0000_0000

  predicate IsInt64(x: int) { -TWO63 <= x < TWO63 }

  /** Go's wrap-around on int64 overflow. */
  function Wrap64(x: int): (r: int)
    ensures IsInt64(r)
    ensures r == x <==> IsInt64(x)
  {
    (x + TWO63) % (2 * TWO63) - TWO63
  }

  /** A number of more than 53 bits, rounded to its leading 53 bits, ties to even; `sticky`
      says whether a one was already shifted out on the right. */
  function RoundBits(n: nat, sticky: bool): (r: int)
    requires n >= TWO53
    ensures r >= TWO53
  {
    if n >= 2 * TWO53 then 2 * RoundBits(n / 2, sticky || n % 2 == 1)
    else if n % 2 == 1 && (sticky || n / 2 % 2 == 1) then 2 * (n / 2) + 2
    else 2 * (n / 2)
  }

  /** tonumber: the double nearest to an integer. */
  function Double(x: int): (r: int)
    ensures -TWO53 <= x <= TWO53 ==> r == x
    ensures x > TWO53 ==> r >= TWO53
    ensures x < -TWO53 ==> r <= -TWO53
  {
    if x > TWO53 then RoundBits(x, false)
    else if x < -TWO53 then -RoundBits(-x, false)
    else x
  }

  /** The distance between neighbouring doubles around `n`. */
  function Spacing(n: nat): int {
    if n < 2 * TWO53 then 2 else 2 * Spacing(n / 2)
  }

  lemma {:induction false} SpacingEven(n: nat)
    ensures Spacing(n) % 2 == 0
  {
    if n >= 2 * TWO53 {
      SpacingEven(n / 2);
    }
  }

  /** One more bit shifted out: twice the number, twice the spacing. */
  lemma DoubleScale(n: nat, rounded: int, spacing: int, k: int)
    requires spacing % 2 == 0 && rounded == k * spacing
    ensures 2 * rounded == k * (2 * spacing)
    ensures -spacing <= 2 * (rounded - n / 2) <= spacing && (n % 2 == 1 ==> 2 * (rounded - n / 2) > -spacing)
      ==> -2 * spacing <= 2 * (2 * rounded - n) <= 2 * spacing
    ensures 2 * (2 * rounded - n) in {2 * spacing, -2 * spacing} ==>
      n % 2 == 0 && 2 * (rounded - n / 2) in {spacing, -spacing}
  {
  }

  /** The result is a double, at most half a spacing away counting what was shifted out, and of
      two that are equally near the even one. */
  lemma {:induction false} RoundBitsIsNearest(n: nat, sticky: bool) returns (k: int)
    requires n >= TWO53
    ensures RoundBits(n, sticky) == k * Spacing(n)
    ensures -Spacing(n) <= 2 * (RoundBits(n, sticky) - n) <= Spacing(n)
    ensures sticky ==> 2 * (RoundBits(n, sticky) - n) > -Spacing(n)
    ensures !sticky && Tie(RoundBits(n, sticky) - n, n) ==> k % 2 == 0
  {
    if n >= 2 * TWO53 {
      var rest := sticky || n % 2 == 1;
      k := RoundBitsIsNearest(n / 2, rest);
      SpacingEven(n / 2);
      DoubleScale(n, RoundBits(n / 2, rest), Spacing(n / 2), k);
    } else {
      k := RoundBits(n, sticky) / 2;
    }
  }

  /** Off by exactly half a spacing. */
  predicate Tie(off: int, n: nat) {
    2 * off == Spacing(n) || 2 * off == -Spacing(n)
  }

  /** tonumber of an integer beyond 2^53 is the nearest double; ties go to the even one. */
  lemma DoubleIsNearest(x: int) returns (k: int)
    requires x > TWO53
    ensures Double(x) == k * Spacing(x) && Double(-x) == -Double(x)
    ensures -Spacing(x) <= 2 * (Double(x) - x) <= Spacing(x)
    ensures Tie(Double(x) - x, x) ==> k % 2 == 0
  {
    k := RoundBitsIsNearest(x, false);
  }

  lemma {:induction false} RoundBitsIdempotent(n: nat, sticky: bool)
    requires n >= TWO53
    ensures RoundBits(RoundBits(n, sticky), false) == RoundBits(n, sticky)
  {
    if n >= 2 * TWO53 {
      RoundBitsIdempotent(n / 2, sticky || n % 2 == 1);
    }
  }

  /** A double is its own nearest double. */
  lemma DoubleIdempotent(x: int)
    ensures Double(Double(x)) == Double(x)
  {
    if x > TWO53 {
      RoundBitsIdempotent(x, false);
    } else if x < -TWO53 {
      RoundBitsIdempotent(-x, false);
    }
  }

  /** 2^k */
  function Power(k: nat): nat {
    if k == 0 then 1 else 2 * Power(k - 1)
  }

  lemma Powers()
    ensures Power(9) == 512 && Power(10) == 1024 && Power(11) == 2048
  {
    assert Power(5) == 32 && Power(9) == 16 * Power(5) && Power(10) == 32 * Power(5) && Power(11) == 2 * Power(10);
  }

  lemma {:induction false} SpacingOf(n: nat, scale: nat)
    requires TWO53 * Power(scale) <= n < TWO53 * Power(scale + 1)
    ensures Spacing(n) == Power(scale + 1)
  {
    if scale > 0 {
      SpacingOf(n / 2, scale - 1);
    }
  }

  lemma {:induction false} SpacingAtMost(n: nat, scale: nat)
    requires n < TWO53 * Power(scale + 1)
    ensures Spacing(n) <= Power(scale + 1)
  {
    if scale > 0 && n >= 2 * TWO53 {
      SpacingAtMost(n / 2, scale - 1);
    }
  }

  /** Rounding takes no number this far below 2^63 up to it. */
  lemma DoubleBelowHalf(m: nat)
    requires TWO53 < m < TWO63 - 1024
    ensures Double(m) < TWO63
  {
    var k := DoubleIsNearest(m);
    Powers();
    SpacingAtMost(m, 9);
  }

  /** Next to 2^63 doubles are 1024 apart, and 2^63 is an even multiple of that. */
  lemma DoubleNearLimit(m: int)
    requires TWO63 - 1024 <= m < TWO63
    ensures Double(m) == TWO63 <==> m >= TWO63 - 512
    ensures Double(m) <= TWO63 && Double(-m) == -Double(m)
  {
    var k := DoubleIsNearest(m);
    Powers();
    SpacingOf(m, 9);
    assert TWO63 == 1024 * TWO53;
  }

  /** The int64 values that round to the smallest one are the 513 smallest. */
  lemma RoundsToLimit(m: int)
    requires 0 <= m <= TWO63
    ensures Double(-m) == -TWO63 <==> m >= TWO63 - 512
    ensures Double(-m) >= -TWO63
  {
    if m == TWO63 {
      var k := DoubleIsNearest(m);
      Powers();
      SpacingOf(m, 10);
    } else if m >= TWO63 - 1024 {
      DoubleNearLimit(m);
    } else if m > TWO53 {
      DoubleBelowHalf(m);
    }
  }

  /** 2^53 is the limit: its successor is not a double. */
  lemma DoubleInexactAboveLimit()
    ensures Double(TWO53 + 1) == TWO53
  {
  }
}
