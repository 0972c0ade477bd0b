/** The clamps the estimates use, and facts about fractions. */
module Numbers {

  function Clamp01(x: real): real { if x < 0.0 then 0.0 else if x > 1.0 then 1.0 else x }

  function AtLeast0(x: real): real { if x < 0.0 then 0.0 else x }

  function Quotient(x: real, y: real): real
    requires y != 0.0
  {
    x / y
  }

  lemma SignOf(x: real, d: real)
    requires d > 0.0
    ensures x * d > 0.0 <==> x > 0.0
    ensures x * d >= 0.0 <==> x >= 0.0
  {
    if x >= 0.0 { assert x * d >= 0.0; } else { assert (-x) * d > 0.0; }
    if x > 0.0 { assert x * d > 0.0; }
  }

  lemma QuotientAdds(x: real, y: real, n: real)
    requires n > 0.0
    ensures Quotient(x + y, n) == Quotient(x, n) + Quotient(y, n)
  {
    var p, q, r := Quotient(x, n), Quotient(y, n), Quotient(x + y, n);
    assert p * n == x && q * n == y && r * n == x + y;
    assert (r - p - q) * n == 0.0;
    SignOf(r - p - q, n);
    SignOf(p + q - r, n);
  }

  // A proper share of a positive number lies strictly between zero and it.
  lemma ShareOf(share: real, whole: real)
    requires whole > 0.0 && 0.0 < share < 1.0
    ensures 0.0 < whole * share < whole
  {
    SignOf(share, whole);
    SignOf(1.0 - share, whole);
    assert (1.0 - share) * whole == whole - whole * share;
  }

  lemma FractionGrows(s: real, d: real)
    requires 0.0 <= s <= d && d > 0.0
    ensures Quotient(s, d + 1.0) <= Quotient(s, d) <= Quotient(s + 1.0, d + 1.0)
    ensures s > 0.0 ==> Quotient(s, d + 1.0) < Quotient(s, d)
    ensures s < d ==> Quotient(s, d) < Quotient(s + 1.0, d + 1.0)
  {
    var x, y, z := Quotient(s, d), Quotient(s, d + 1.0), Quotient(s + 1.0, d + 1.0);
    assert x * d == s && y * (d + 1.0) == s && z * (d + 1.0) == s + 1.0;
    SignOf(x, d);
    SignOf(1.0 - x, d);
    assert (1.0 - x) * d == d - s;
    assert (x - y) * (d + 1.0) == x;
    assert (z - x) * (d + 1.0) == 1.0 - x;
    SignOf(x - y, d + 1.0);
    SignOf(z - x, d + 1.0);
  }
}
