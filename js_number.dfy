/** The JavaScript number semantics the atlas node's arithmetic relies on,
    over exact reals (IEEE-754 rounding is not modelled). */
module JsNumber {

  const TWO_31: int := 0x8000_0000
  const TWO_32: int := 0x1_0000_0000

  /** The integer part of `x`, truncated toward zero. */
  function Trunc(x: real): (r: int)
    ensures 0.0 <= x ==> 0 <= r && r as real <= x < r as real + 1.0
    ensures x < 0.0 ==> r <= 0 && r as real - 1.0 < x <= r as real
  {
    if 0.0 <= x then x.Floor else -((-x).Floor)
  }

  /** ECMAScript ToInt32 of an integer: the value congruent to `k` modulo 2^32
      that lies in [-2^31, 2^31). */
  function ToInt32(k: int): (r: int)
    ensures -TWO_31 <= r < TWO_31
    ensures (k - r) % TWO_32 == 0
    ensures -TWO_31 <= k < TWO_31 ==> r == k
  {
    var m := k % TWO_32;
    if m < TWO_31 then m else m - TWO_32
  }

  /** `0 | (size / item)`: the quotient truncated to a 32-bit integer. A zero
      divisor gives Infinity, -Infinity or NaN, all of which `0 |` maps to 0. */
  function TruncatedQuotient(size: real, item: real): (r: int)
    ensures -TWO_31 <= r < TWO_31
    ensures item == 0.0 ==> r == 0
  {
    if item == 0.0 then 0 else ToInt32(Trunc(size / item))
  }

  /** For a positive tile size and fewer than 2^31 tiles, the truncated
      quotient is the number of whole tiles that fit: `n` tiles fit, `n + 1`
      do not. */
  lemma {:induction false} TruncatedQuotientFits(size: real, item: real)
    requires 0.0 < item && 0.0 <= size < TWO_31 as real * item
    ensures var n := TruncatedQuotient(size, item);
      0 <= n && n as real * item <= size < (n + 1) as real * item
  {
    var q := size / item;
    QuotientTimesDivisor(size, item);
    assert q < TWO_31 as real by {
      if TWO_31 as real <= q {
        ScaleMonotone(TWO_31 as real, q, item);
      }
    }
    var t := Trunc(q);
    assert 0 <= t < TWO_31;
    assert TruncatedQuotient(size, item) == t;
    BracketScaled(t, q, item, size);
  }

  lemma QuotientTimesDivisor(size: real, item: real)
    requires item != 0.0
    ensures (size / item) * item == size
  {
  }

  /** If `t <= q < t + 1`, scaling by a positive `item` keeps the bracket. */
  lemma BracketScaled(t: int, q: real, item: real, size: real)
    requires 0.0 < item && t as real <= q < (t + 1) as real && q * item == size
    ensures t as real * item <= size < (t + 1) as real * item
  {
    ScaleMonotone(t as real, q, item);
    ScaleStrict(q, (t + 1) as real, item);
  }

  /** Conversely, a count of whole tiles that fit, below 2^31, is the truncated
      quotient: the grid dimension is determined by the fit. */
  lemma {:induction false} TruncatedQuotientUnique(size: real, item: real, n: int)
    requires 0.0 < item && 0 <= n < TWO_31
    requires n as real * item <= size < (n + 1) as real * item
    ensures TruncatedQuotient(size, item) == n
  {
    assert (n + 1) as real <= TWO_31 as real;
    ScaleMonotone((n + 1) as real, TWO_31 as real, item);
    TruncatedQuotientFits(size, item);
    FitIsUnique(size, item, TruncatedQuotient(size, item), n);
  }

  /** At most one count of whole tiles fits exactly. */
  lemma FitIsUnique(size: real, item: real, m: int, n: int)
    requires 0.0 < item
    requires m as real * item <= size < (m + 1) as real * item
    requires n as real * item <= size < (n + 1) as real * item
    ensures m == n
  {
    if m < n {
      FitsAreOrdered(size, item, m, n);
    } else if n < m {
      FitsAreOrdered(size, item, n, m);
    }
  }

  /** A smaller count that fits leaves no room for a larger one. */
  lemma FitsAreOrdered(size: real, item: real, m: int, n: int)
    requires 0.0 < item && m < n
    requires size < (m + 1) as real * item
    ensures size < n as real * item
  {
    var a, b := (m + 1) as real, n as real;
    assert a <= b;
    ScaleMonotone(a, b, item);
  }

  /** Multiplying by a positive factor preserves `<=`. */
  lemma ScaleMonotone(a: real, b: real, k: real)
    requires a <= b && 0.0 < k
    ensures a * k <= b * k
  {
  }

  /** Multiplying by a positive factor preserves `<`. */
  lemma ScaleStrict(a: real, b: real, k: real)
    requires a < b && 0.0 < k
    ensures a * k < b * k
  {
  }

  /** `c * opacity / 255`, the scaling setColor applies to one colour channel
      when opacity modifies RGB. No truncation takes place. */
  function Modulate(c: real, opacity: real): (r: real)
    ensures opacity == 255.0 ==> r == c
    ensures opacity == 0.0 ==> r == 0.0
    ensures 0.0 <= c && 0.0 <= opacity <= 255.0 ==> 0.0 <= r <= c
  {
    c * opacity / 255.0
  }
}
