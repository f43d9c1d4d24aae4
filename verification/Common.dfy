/** Bytes, powers of two and a little arithmetic that several modules share.
  */
module Common {

  type u8 = x: int | 0 <= x < 0x100

  function Min(a: nat, b: nat): (r: nat)
    ensures r <= a && r <= b && (r == a || r == b)
  {
    if a < b then a else b
  }

  /** Bit i of a byte. */
  function Bit(b: u8, i: nat): (bit: nat)
    requires i < 8
    ensures bit <= 1
  {
    b / [1, 2, 4, 8, 16, 32, 64, 128][i] % 2
  }

  function Pow2(k: nat): (r: nat)
    ensures r >= 1
  {
    if k == 0 then 1 else 2 * Pow2(k - 1)
  }

  /** Cycles in a sequence of calls. */
  function Total(batches: seq<nat>): nat {
    if batches == [] then 0 else batches[0] + Total(batches[1..])
  }

  // ------------------------------------------------------------- multiplication and division

  lemma MultipleAtLeast(k: int, d: nat)
    requires k >= 1
    ensures k * d >= d
  {
  }

  /** q and r are the quotient and remainder of a by d. */
  lemma DivModUnique(a: int, d: nat, q: int, r: nat)
    requires d > 0 && a == q * d + r && r < d
    ensures a / d == q && a % d == r
  {
    var q', r' := a / d, a % d;
    assert a == d * q' + r';
    assert (q' - q) * d == q' * d - q * d;
    if q' > q {
      MultipleAtLeast(q' - q, d);
    } else if q' < q {
      MultipleAtLeast(q - q', d);
    }
  }
}
