/**
 * Integer views of the C++ bit operations used by the sample codecs.
 *
 * For any C++ `int` x and any mask `m - 1` with m a power of two,
 * `x & (m - 1)` equals `x % m` with Dafny's Euclidean remainder (two's
 * complement), and for a power of two d, the arithmetic shift `x >> log2(d)`
 * equals `x / d` (floor division). So `(w >> s) & mask` is `FieldAt(w, 2^s, mask + 1)`.
 */
module BitFields {

  /** The bits of w selected by `(w >> log2(d)) & (m - 1)`. */
  function FieldAt(w: int, d: int, m: int): int
    requires d > 0 && m > 0
  {
    (w / d) % m
  }

  /** Reinterprets the low 32 bits of x as a signed two's-complement `int32_t`. */
  function Wrap32(x: int): (r: int)
    ensures -0x8000_0000 <= r < 0x8000_0000
    ensures (r - x) % 0x1_0000_0000 == 0
  {
    (x + 0x8000_0000) % 0x1_0000_0000 - 0x8000_0000
  }

  lemma MulAtLeast(k: int, d: int)
    requires k >= 1 && d > 0
    ensures k * d >= d
  {}

  /** Euclidean division is unique: q and r are the quotient and remainder of q * d + r. */
  lemma {:induction false} DivMod(q: int, d: int, r: int)
    requires d > 0 && 0 <= r < d
    ensures (q * d + r) / d == q && (q * d + r) % d == r
  {
    var x := q * d + r;
    var q', r' := x / d, x % d;
    assert x == q' * d + r';
    assert (q' - q) * d == r - r';
    if q' > q {
      MulAtLeast(q' - q, d);
    } else if q' < q {
      MulAtLeast(q - q', d);
    }
  }

  /** A field f placed above lo and below hi reads back as f. */
  lemma Field(hi: int, f: int, lo: int, d: int, m: int)
    requires d > 0 && m > 0 && 0 <= f < m && 0 <= lo < d
    ensures FieldAt((hi * m + f) * d + lo, d, m) == f
  {
    DivMod(hi * m + f, d, lo);
    DivMod(hi, m, f);
  }

  /** On a value that fits in 32 unsigned bits, Wrap32 subtracts 2^32 exactly when bit 31 is set. */
  lemma WrapOf(x: int)
    requires 0 <= x < 0x1_0000_0000
    ensures Wrap32(x) == if x < 0x8000_0000 then x else x - 0x1_0000_0000
  {
    if x < 0x8000_0000 {
      DivMod(0, 0x1_0000_0000, x + 0x8000_0000);
    } else {
      DivMod(1, 0x1_0000_0000, x + 0x8000_0000 - 0x1_0000_0000);
    }
  }
}
