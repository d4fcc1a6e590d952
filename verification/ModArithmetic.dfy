/** Remainders by a variable divisor: the few facts circular buffers need. */
module ModArithmetic {

  lemma MulStep(q: int, c: int)
    ensures (q + 1) * c == q * c + c
  {
  }

  /** The remainder is the only number in [0, c) that differs from x by a multiple of c. */
  lemma ModUnique(x: int, q: int, r: int, c: int)
    requires 0 <= r < c && x == q * c + r
    ensures x % c == r
  {
    var q1, r1 := x / c, x % c;
    assert x == q1 * c + r1;
    assert (q1 - q) * c == q1 * c - q * c;
    if q1 > q {
      MulAtLeast(q1 - q, c);
    } else if q1 < q {
      MulAtLeast(q - q1, c);
    }
  }

  lemma MulAtLeast(q: int, c: int)
    requires q >= 1 && c >= 0
    ensures q * c >= c
  {
    assert q * c == (q - 1) * c + c;
    MulNonNegative(q - 1, c);
  }

  lemma MulNonNegative(q: int, c: int)
    requires q >= 0 && c >= 0
    ensures q * c >= 0
  {
  }

  /** Reducing before adding changes nothing. */
  lemma ModAddLeft(x: int, y: int, c: int)
    requires c > 0
    ensures (x % c + y) % c == (x + y) % c
  {
    var q, r := x / c, x % c;
    assert x == q * c + r;
    var z := r + y;
    var qz, rz := z / c, z % c;
    assert z == qz * c + rz;
    assert x + y == (q + qz) * c + rz by {
      assert (q + qz) * c == q * c + qz * c;
    }
    ModUnique(x + y, q + qz, rz, c);
  }

  /** Numbers less than c apart fall into different slots. */
  lemma ModDistinct(x: int, y: int, c: int)
    requires c > 0 && 0 < y - x < c
    ensures x % c != y % c
  {
    if x % c == y % c {
      var qx, qy, r := x / c, y / c, x % c;
      assert x == qx * c + r && y == qy * c + r;
      assert y - x == (qy - qx) * c by { assert (qy - qx) * c == qy * c - qx * c; }
      assert (qy - qx) * c == -((qx - qy) * c);
      if qy - qx >= 1 {
        MulAtLeast(qy - qx, c);
      } else {
        MulNonNegative(qx - qy, c);
      }
    }
  }

  lemma ModSmall(x: int, c: int)
    requires 0 <= x < c
    ensures x % c == x
  {
    ModUnique(x, 0, x, c);
  }

  lemma ModShift(x: int, c: int)
    requires c > 0
    ensures (x + c) % c == x % c
  {
    var q, r := x / c, x % c;
    assert x == q * c + r;
    MulStep(q, c);
    ModUnique(x + c, q + 1, r, c);
  }
}
