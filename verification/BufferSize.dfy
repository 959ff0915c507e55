/** Alignment of a socket buffer with the segment size. */
module BufferSize {
  import opened Arith

  const STANDARD_MTU := 1500
  const STANDARD_MSS := STANDARD_MTU - 40
  const STANDARD_BSS := STANDARD_MSS * 6

  function Min(a: int, b: int): int {
    if a < b then a else b
  }

  /** Division that truncates toward zero, as the source's does. */
  function Quot(a: int, b: int): int
    requires b > 0
  {
    if a >= 0 then a / b else -(-a / b)
  }

  function Calc(mss: int, bss: int, limit: int): int {
    if mss < STANDARD_MSS / 3 || bss < STANDARD_BSS / 3 || Quot(bss, mss) < 4 then bss
    else Raised(mss, bss, Quot(Min(bss, limit), mss) * mss)
  }

  /** At least six segments, as far as the system's size allows. */
  function Raised(mss: int, bss: int, r: int): int {
    if r < mss * 6 then Min(bss, mss * 6) else r
  }

  lemma FloorMultiple(a: int, m: int)
    requires m > 0
    ensures Quot(a, m) * m <= a || a < 0
    ensures a >= 0 ==> a - m < Quot(a, m) * m
    ensures a < 0 ==> Quot(a, m) * m <= 0
  {
    if a < 0 {
      assert -a / m * m <= -a;
      assert Quot(a, m) * m == -(-a / m * m);
      assert -a / m >= 0;
      assert -a / m * m >= 0;
    }
  }

  lemma ExactMultiple(k: int, m: int)
    requires m > 0 && k >= 0
    ensures k * m >= 0 && Quot(k * m, m) == k
  {
    MultipleHasNoRest(k, m);
    assert k * m >= 0;
  }

  /** The result never exceeds the size the system had chosen, and is a whole number of segments or that size. */
  lemma NeverLarger(mss: int, bss: int, limit: int)
    ensures Calc(mss, bss, limit) <= bss
    ensures Calc(mss, bss, limit) != bss ==>
              mss > 0 && Calc(mss, bss, limit) % mss == 0 && Calc(mss, bss, limit) >= mss * 6
  {
    if !(mss < STANDARD_MSS / 3 || bss < STANDARD_BSS / 3 || Quot(bss, mss) < 4) {
      var q := Quot(Min(bss, limit), mss);
      FloorMultiple(Min(bss, limit), mss);
      MultipleHasNoRest(q, mss);
      MultipleHasNoRest(6, mss);
    }
  }

  lemma Order(q: int, k: int, m: int)
    requires m > 0
    ensures q < k <==> q * m < k * m
  {
    if q < k {
      assert (k - q) * m > 0;
    } else {
      assert (q - k) * m >= 0;
    }
  }

  /** A size that differs from the system's is six or more segments, and just six when the limit is below it. */
  lemma AlignedSize(mss: int, bss: int, limit: int) returns (k: int)
    requires Calc(mss, bss, limit) != bss
    ensures mss >= STANDARD_MSS / 3 && k >= 6 && Calc(mss, bss, limit) == k * mss
    ensures limit < k * mss ==> k == 6
  {
    var q := Quot(Min(bss, limit), mss);
    Order(q, 6, mss);
    k := if q < 6 then 6 else q;
    assert Raised(mss, bss, q * mss) == k * mss;
    FloorMultiple(Min(bss, limit), mss);
  }

  lemma AlignedStays(mss: int, k: int, limit: int)
    requires mss >= STANDARD_MSS / 3 && k >= 6 && (limit < k * mss ==> k == 6)
    ensures Calc(mss, k * mss, limit) == k * mss
  {
    Order(k, 6, mss);
    if limit < k * mss {
      FloorMultiple(limit, mss);
      assert Raised(mss, k * mss, Quot(limit, mss) * mss) == k * mss;
    } else {
      ExactMultiple(k, mss);
      assert Raised(mss, k * mss, k * mss) == k * mss;
    }
  }

  /** Aligning an aligned size changes nothing. */
  lemma CalcTwice(mss: int, bss: int, limit: int)
    ensures Calc(mss, Calc(mss, bss, limit), limit) == Calc(mss, bss, limit)
  {
    if Calc(mss, bss, limit) != bss {
      var k := AlignedSize(mss, bss, limit);
      AlignedStays(mss, k, limit);
    }
  }

  /** A whole number of segments that misses `a` by less than one reaches `k` segments if `a` does. */
  lemma AtLeast(q: int, k: int, m: int, a: int)
    requires m > 0 && a - m < q * m
    ensures a >= k * m ==> q >= k
  {
    Order(k - 1, q, m);
    assert (k - 1) * m == k * m - m;
  }

  lemma SegmentsIn(a: int, m: int, k: int)
    requires m > 0 && a >= 0 && k > 0
    ensures Quot(a, m) * m <= a < Quot(a, m) * m + m
    ensures Quot(a, m) >= k <==> a >= k * m
  {
    FloorMultiple(a, m);
    AtLeast(Quot(a, m), k, m, a);
    Order(Quot(a, m), k, m);
  }

  lemma FewSegments(a: int, m: int)
    requires m > 0 && a < 6 * m
    ensures Quot(a, m) * m < m * 6
  {
    FloorMultiple(a, m);
  }

  lemma RaisedSize(mss: int, bss: int, top: int)
    requires mss > 0
    ensures var r := Raised(mss, bss, Quot(top, mss) * mss);
            if top >= 6 * mss then r == Quot(top, mss) * mss && r <= top < r + mss
            else r == Min(bss, 6 * mss)
  {
    if top >= 6 * mss {
      SegmentsIn(top, mss, 6);
      Order(Quot(top, mss), 6, mss);
    } else {
      FewSegments(top, mss);
    }
  }

  /**
   Sizes that look odd (segments below 486 bytes, a buffer below 2920 bytes or four segments) stay
   as they are. Else the result is the largest whole number of segments within the buffer and the
   limit, or, if that is fewer than six, six segments as far as the buffer goes.
   */
  lemma CalcExact(mss: int, bss: int, limit: int)
    ensures mss < 486 || bss < 2920 || bss < 4 * mss ==> Calc(mss, bss, limit) == bss
    ensures mss >= 486 && bss >= 2920 && bss >= 4 * mss ==>
              var r, top := Calc(mss, bss, limit), Min(bss, limit);
              if top >= 6 * mss then r % mss == 0 && r <= top < r + mss
              else r == Min(bss, 6 * mss)
  {
    if mss >= 486 && bss >= 2920 {
      var top := Min(bss, limit);
      SegmentsIn(bss, mss, 4);
      RaisedSize(mss, bss, top);
      MultipleHasNoRest(Quot(top, mss), mss);
    }
  }
}
