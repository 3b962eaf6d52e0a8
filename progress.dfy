/** The percentage that the upload-progress callback stores.

    The source computes `Math.round((loaded * 100) / total)` from the byte counts
    of a progress event. For `total > 0` this is the integer nearest to
    `100 * loaded / total`, halves rounded up, which in exact integer arithmetic is
    `(200 * loaded + total) / (2 * total)`. A zero `total` makes the JavaScript
    division yield Infinity (or NaN when `loaded` is zero too), and `Math.round`
    passes both through unchanged. */
module Progress {

  /** A JavaScript number as that computation can produce it. */
  datatype Percent = Finite(value: int) | Infinity | NaN

  /** `a <= b` is preserved by multiplying both sides by a non-negative factor. */
  lemma ScaleNonStrict(t: int, a: int, b: int)
    requires t >= 0 && a <= b
    ensures t * a <= t * b
  {
  }

  /** `Math.round((loaded * 100) / total)` for non-negative byte counts. */
  function RoundedPercent(loaded: int, total: int): (p: Percent)
    requires 0 <= loaded && 0 <= total
    ensures p.Finite? <==> total > 0
    ensures p.Finite? ==>
      2 * total * p.value <= 200 * loaded + total < 2 * total * (p.value + 1)
    ensures total == 0 ==> (p == NaN <==> loaded == 0)
  {
    if total > 0 then
      var q := (200 * loaded + total) / (2 * total);
      assert 2 * total * (q + 1) == 2 * total * q + 2 * total;
      Finite(q)
    else if loaded == 0 then NaN
    else Infinity
  }

  /** The rounding condition names one integer only: the stored value is THE
      integer `r` with `r - 1/2 <= 100 * loaded / total < r + 1/2`. */
  lemma RoundingIsUnique(loaded: int, total: int, r: int)
    requires 0 <= loaded && 0 < total
    requires 2 * total * r <= 200 * loaded + total < 2 * total * (r + 1)
    ensures RoundedPercent(loaded, total) == Finite(r)
  {
  }

  /** While no more than the whole file has been sent, the percentage lies in [0, 100]. */
  lemma PercentInRange(loaded: int, total: int)
    requires 0 <= loaded <= total && 0 < total
    ensures RoundedPercent(loaded, total).Finite?
    ensures 0 <= RoundedPercent(loaded, total).value <= 100
  {
    var q := RoundedPercent(loaded, total).value;
    ScaleNonStrict(200, loaded, total);
    if q < 0 {
      ScaleNonStrict(2 * total, q + 1, 0);
    }
    if q > 100 {
      ScaleNonStrict(2 * total, 101, q);
    }
  }

  /** More bytes sent never lowers the percentage for the same total. */
  lemma PercentMonotone(loaded1: int, loaded2: int, total: int)
    requires 0 <= loaded1 <= loaded2 && 0 < total
    ensures RoundedPercent(loaded1, total).value <= RoundedPercent(loaded2, total).value
  {
  }

  /** Nothing sent reads 0 and everything sent reads 100. */
  lemma PercentAtEnds(total: int)
    requires 0 < total
    ensures RoundedPercent(0, total) == Finite(0)
    ensures RoundedPercent(total, total) == Finite(100)
  {
    RoundingIsUnique(0, total, 0);
    RoundingIsUnique(total, total, 100);
  }
}
