/**
 Addresses and prefix matching (section 2.3 of RFC 4291, section 3.1 of RFC 4632).

 An IPv6 address is kept as the source keeps it, as four 32-bit words in network
 order; `Value` is the 128-bit number they spell.
 */
module Inet {
  import opened Arith

  const WORD := 0x1_0000_0000

  type Word = n: nat | n < 0x1_0000_0000

  datatype Addr =
    | V4(a: Word)
    | V6(w0: Word, w1: Word, w2: Word, w3: Word)
    | Unknown(family: nat)
  {
    function Words(): seq<Word>
      requires !Unknown?
    {
      match this
      case V4(a) => [a]
      case V6(w0, w1, w2, w3) => [w0, w1, w2, w3]
    }

    function Width(): nat
      requires !Unknown?
    {
      32 * |Words()|
    }
  }

  datatype Cidr = Cidr(addr: Addr, pref: int)

  predicate SameFamily(a: Addr, b: Addr) {
    || (a.V4? && b.V4?)
    || (a.V6? && b.V6?)
    || (a.Unknown? && b.Unknown? && a.family == b.family)
  }

  function Fit(v: int, lo: int, hi: int): int {
    if v < lo then lo else if v > hi then hi else v
  }

  function Pow2(n: nat): (p: nat)
    ensures p >= 1
  {
    if n == 0 then 1 else 2 * Pow2(n - 1)
  }

  /** The number that a sequence of words spells, most significant word first. */
  function Value(ws: seq<Word>): nat {
    if ws == [] then 0 else Value(ws[..|ws| - 1]) * WORD + ws[|ws| - 1]
  }

  /** The source's `>>` on unsigned numbers: `n` halvings. */
  function Shr(x: nat, n: nat): (r: nat)
    decreases n
  {
    if n == 0 then x else Shr(x / 2, n - 1)
  }

  /** Membership, with the address taken as one wide number. */
  predicate InPrefix(a: Addr, c: Cidr) {
    && SameFamily(a, c.addr)
    && (if a.Unknown? then c.pref == 0 else
        var drop := a.Width() - Fit(c.pref, 0, a.Width());
        Shr(Value(a.Words()), drop) == Shr(Value(c.addr.Words()), drop))
  }

  /** What one round of the word loop compares; a shift of 32 passes the word through. */
  predicate WordAgrees(x: Word, y: Word, left: int) {
    var shift := Fit(left, 0, 32);
    shift == 32 || Shr(x, shift) == Shr(y, shift)
  }

  // ---- arithmetic of powers of two ----

  lemma {:induction false} Pow2Add(m: nat, n: nat)
    ensures Pow2(m + n) == Pow2(m) * Pow2(n)
  {
    if n > 0 {
      Pow2Add(m, n - 1);
      calc {
        Pow2(m + n);
        2 * Pow2(m + (n - 1));
        2 * (Pow2(m) * Pow2(n - 1));
        Pow2(m) * (2 * Pow2(n - 1));
      }
    }
  }

  lemma Pow2Word()
    ensures Pow2(32) == WORD
  {
    assert Pow2(8) == 256;
    Pow2Add(8, 8);
    Pow2Add(16, 16);
  }

  lemma HalveQuotient(x: nat, e: nat)
    requires e > 0
    ensures x / 2 / e == x / (2 * e)
  {
    var h := x / 2;
    var q, r := h / e, h % e;
    assert h == q * e + r;
    assert q * (2 * e) == 2 * (q * e);
    QuotientUnique(x, 2 * e, q, 2 * r + x % 2);
  }

  lemma {:induction false} ShrIsQuotient(x: nat, n: nat)
    ensures Shr(x, n) == x / Pow2(n)
  {
    if n > 0 {
      ShrIsQuotient(x / 2, n - 1);
      HalveQuotient(x, Pow2(n - 1));
    }
  }

  lemma {:induction false} ShrAdd(x: nat, m: nat, n: nat)
    ensures Shr(x, m + n) == Shr(Shr(x, m), n)
    decreases m
  {
    if m > 0 {
      ShrAdd(x / 2, m - 1, n);
    }
  }

  lemma DropWord(hi: nat, lo: Word)
    ensures Shr(hi * WORD + lo, 32) == hi
  {
    ShrIsQuotient(hi * WORD + lo, 32);
    Pow2Word();
    QuotientUnique(hi * WORD + lo, WORD, hi, lo);
  }

  /** Shifting a number by more than its last word only depends on the words before. */
  lemma ShiftPastWord(hi: nat, lo: Word, left: nat)
    requires left >= 32
    ensures Shr(hi * WORD + lo, left) == Shr(hi, left - 32)
  {
    ShrAdd(hi * WORD + lo, 32, left - 32);
    DropWord(hi, lo);
  }

  /** Dividing by one factor of the word size keeps the high part as a multiple of the other. */
  lemma FactorSplit(hi: nat, lo: nat, d: nat, e: nat, w: nat)
    requires d > 0 && w == e * d && lo < w
    ensures (hi * w + lo) / d == hi * e + lo / d
    ensures lo / d < e
  {
    var q, r := lo / d, lo % d;
    assert lo == q * d + r;
    MulAssoc(hi, e, d);
    assert (hi * e + q) * d == (hi * e) * d + q * d;
    QuotientUnique(hi * w + lo, d, hi * e + q, r);
    assert (q - e) * d < 0;
  }

  lemma SplitUnique(h1: nat, h2: nat, l1: nat, l2: nat, e: nat)
    requires l1 < e && l2 < e
    ensures h1 * e + l1 == h2 * e + l2 <==> h1 == h2 && l1 == l2
  {
    QuotientUnique(h1 * e + l1, e, h1, l1);
    QuotientUnique(h2 * e + l2, e, h2, l2);
  }

  /** Shifting within the last word compares that word's high bits and everything before it. */
  lemma ShiftWithinWord(h1: nat, l1: Word, h2: nat, l2: Word, left: nat)
    requires left < 32
    ensures Shr(h1 * WORD + l1, left) == Shr(h2 * WORD + l2, left)
       <==> h1 == h2 && Shr(l1, left) == Shr(l2, left)
  {
    var d, e := Pow2(left), Pow2(32 - left);
    assert WORD == e * d by {
      Pow2Add(32 - left, left);
      Pow2Word();
    }
    ShrIsQuotient(h1 * WORD + l1, left);
    ShrIsQuotient(h2 * WORD + l2, left);
    ShrIsQuotient(l1, left);
    ShrIsQuotient(l2, left);
    FactorSplit(h1, l1, d, e, WORD);
    FactorSplit(h2, l2, d, e, WORD);
    SplitUnique(h1, h2, l1 / d, l2 / d, e);
  }

  /** The word loop compares the last word with the full shift, each earlier one with 32 less. */
  predicate AllAgree(x: seq<Word>, y: seq<Word>, left: int)
    requires |x| == |y|
  {
    forall k :: 0 <= k < |x| ==> WordAgrees(x[k], y[k], left - 32 * (|x| - 1 - k))
  }

  lemma AllAgreeSplit(x: seq<Word>, y: seq<Word>, left: int)
    requires |x| == |y| > 0
    ensures var n := |x| - 1;
            AllAgree(x, y, left) <==> AllAgree(x[..n], y[..n], left - 32) && WordAgrees(x[n], y[n], left)
  {
    var n := |x| - 1;
    if AllAgree(x, y, left) {
      forall k | 0 <= k < n
        ensures WordAgrees(x[..n][k], y[..n][k], left - 32 - 32 * (n - 1 - k))
      {
        assert WordAgrees(x[k], y[k], left - 32 * (n - k));
      }
    }
    if AllAgree(x[..n], y[..n], left - 32) && WordAgrees(x[n], y[n], left) {
      forall k | 0 <= k < |x|
        ensures WordAgrees(x[k], y[k], left - 32 * (n - k))
      {
        if k < n {
          assert WordAgrees(x[..n][k], y[..n][k], left - 32 - 32 * (n - 1 - k));
        }
      }
    }
  }

  /** Word by word comparison from the last word equals comparison of the shifted numbers. */
  lemma {:induction false} WordsDecide(x: seq<Word>, y: seq<Word>, left: int)
    requires |x| == |y|
    ensures var drop := if left < 0 then 0 else left;
            Shr(Value(x), drop) == Shr(Value(y), drop) <==> AllAgree(x, y, left)
  {
    if |x| > 0 {
      var n := |x| - 1;
      AllAgreeSplit(x, y, left);
      WordsDecide(x[..n], y[..n], left - 32);
      if left >= 32 {
        ShiftPastWord(Value(x[..n]), x[n], left);
        ShiftPastWord(Value(y[..n]), y[n], left);
      } else {
        var drop := if left < 0 then 0 else left;
        ShiftWithinWord(Value(x[..n]), x[n], Value(y[..n]), y[n], drop);
      }
    }
  }

  /** The word loop of the IPv6 branch, from the last word to the first. */
  method WordsMatch(x: seq<Word>, y: seq<Word>, drop: int) returns (r: bool)
    requires |x| == |y| == 4
    ensures r == AllAgree(x, y, drop)
  {
    var left := drop;
    var i := 3;
    while i >= 0
      invariant -1 <= i <= 3 && left == drop - 32 * (3 - i)
      invariant forall k :: i < k < 4 ==> WordAgrees(x[k], y[k], drop - 32 * (3 - k))
    {
      var shift := Fit(left, 0, 32);
      if shift != 32 && Shr(x[i], shift) != Shr(y[i], shift) {
        assert !WordAgrees(x[i], y[i], drop - 32 * (3 - i));
        return false;
      }
      i, left := i - 1, left - 32;
    }
    return true;
  }

  /** `is_addr_in_cidr`: an early exit on prefix 0, one shift for IPv4, a loop for IPv6. */
  method IsAddrInCidr(a: Addr, c: Cidr) returns (r: bool)
    ensures r == InPrefix(a, c)
  {
    if !SameFamily(a, c.addr) {
      return false;
    }
    if !a.Unknown? {
      WordsDecide(a.Words(), c.addr.Words(), a.Width() - Fit(c.pref, 0, a.Width()));
    }
    if c.pref == 0 {
      return true;
    }
    if a.V6? {
      r := WordsMatch(a.Words(), c.addr.Words(), Fit(128 - c.pref, 0, 128));
    } else if a.V4? {
      var shift := Fit(32 - c.pref, 0, 32);
      assert AllAgree([a.a], [c.addr.a], shift) <==> WordAgrees([a.a][0], [c.addr.a][0], shift);
      r := shift == 32 || Shr(a.a, shift) == Shr(c.addr.a, shift);
    } else {
      r := false;
    }
  }

  // ---- what membership means to a reader of the configuration ----

  /** Bit `i` of a `w`-bit number, counted from the most significant one. */
  function Bit(v: nat, w: nat, i: nat): nat
    requires i < w
  {
    Shr(v, w - 1 - i) % 2
  }

  lemma {:induction false} LeadingBits(x: nat, y: nat, w: nat, p: nat)
    requires p <= w && x < Pow2(w) && y < Pow2(w)
    ensures Shr(x, w - p) == Shr(y, w - p) <==> forall i :: 0 <= i < p ==> Bit(x, w, i) == Bit(y, w, i)
  {
    if p == 0 {
      ShrIsQuotient(x, w);
      ShrIsQuotient(y, w);
      QuotientUnique(x, Pow2(w), 0, x);
      QuotientUnique(y, Pow2(w), 0, y);
    } else {
      LeadingBits(x, y, w, p - 1);
      ShrAdd(x, w - p, 1);
      ShrAdd(y, w - p, 1);
      assert forall z: nat :: Shr(z, 1) == Shr(z / 2, 0) == z / 2;
      assert Bit(x, w, p - 1) == Shr(x, w - p) % 2 && Bit(y, w, p - 1) == Shr(y, w - p) % 2;
    }
  }

  lemma {:induction false} ValueBound(ws: seq<Word>)
    ensures Value(ws) < Pow2(32 * |ws|)
  {
    if ws != [] {
      var n := |ws| - 1;
      ValueBound(ws[..n]);
      Pow2Add(32 * n, 32);
      Pow2Word();
      assert 32 * n + 32 == 32 * |ws|;
      assert Value(ws[..n]) * WORD <= (Pow2(32 * n) - 1) * WORD;
    }
  }

  /** Membership is equality of the quotients by `2^(width - prefix)`. */
  lemma InPrefixIsQuotient(a: Addr, c: Cidr)
    requires SameFamily(a, c.addr) && !a.Unknown?
    requires 0 <= c.pref <= a.Width()
    ensures InPrefix(a, c) <==>
      Value(a.Words()) / Pow2(a.Width() - c.pref) == Value(c.addr.Words()) / Pow2(a.Width() - c.pref)
  {
    ShrIsQuotient(Value(a.Words()), a.Width() - c.pref);
    ShrIsQuotient(Value(c.addr.Words()), a.Width() - c.pref);
  }

  /** An address is in a block exactly when the first `pref` bits agree. */
  lemma InPrefixIsLeadingBits(a: Addr, c: Cidr)
    requires SameFamily(a, c.addr) && !a.Unknown?
    requires 0 <= c.pref <= a.Width()
    ensures InPrefix(a, c) <==>
      forall i :: 0 <= i < c.pref ==>
        Bit(Value(a.Words()), a.Width(), i) == Bit(Value(c.addr.Words()), a.Width(), i)
  {
    ValueBound(a.Words());
    ValueBound(c.addr.Words());
    LeadingBits(Value(a.Words()), Value(c.addr.Words()), a.Width(), c.pref);
  }

  /** A longer prefix can only shrink the block. */
  lemma LongerPrefixIsNarrower(a: Addr, net: Addr, p: int, q: int)
    requires !a.Unknown? && q <= p
    requires InPrefix(a, Cidr(net, p))
    ensures InPrefix(a, Cidr(net, q))
  {
    var w := a.Width();
    var m, n := w - Fit(p, 0, w), w - Fit(q, 0, w);
    ShrAdd(Value(a.Words()), m, n - m);
    ShrAdd(Value(net.Words()), m, n - m);
  }

  /** For a fixed prefix membership is an equivalence, so that two blocks are equal or disjoint. */
  lemma BlocksPartition(a: Addr, b: Addr, c: Addr, p: int)
    requires !a.Unknown?
    ensures InPrefix(a, Cidr(a, p))
    ensures InPrefix(a, Cidr(b, p)) ==>
              InPrefix(b, Cidr(a, p)) && (InPrefix(c, Cidr(a, p)) <==> InPrefix(c, Cidr(b, p)))
  {
  }

  /** Addresses of different families never match, and an address of no known family only prefix 0. */
  lemma OtherFamiliesDoNotMatch(a: Addr, c: Cidr)
    ensures InPrefix(a, c) ==> (a.V4? && c.addr.V4?) || (a.V6? && c.addr.V6?) || (a.Unknown? && a == c.addr)
    ensures a.Unknown? ==> (InPrefix(a, c) <==> a == c.addr && c.pref == 0)
  {
  }

  /** Prefixes out of range count as the nearest one in range. */
  lemma PrefixIsClamped(a: Addr, net: Addr, p: int)
    requires !a.Unknown?
    ensures p < 0 ==> (InPrefix(a, Cidr(net, p)) <==> InPrefix(a, Cidr(net, 0)))
    ensures p > a.Width() ==> (InPrefix(a, Cidr(net, p)) <==> InPrefix(a, Cidr(net, a.Width())))
  {
  }

  /** Prefix 0 admits every address of the family, and no other. */
  lemma ZeroPrefixAdmitsAll(a: Addr, net: Addr)
    ensures InPrefix(a, Cidr(net, 0))
            <==> (a.V4? && net.V4?) || (a.V6? && net.V6?) || (a.Unknown? && a == net)
  {
    if SameFamily(a, net) && !a.Unknown? {
      WordsDecide(a.Words(), net.Words(), a.Width());
    }
  }

  /** A full-length prefix names a single address. */
  lemma FullPrefixIsOneAddress(a: Addr, net: Addr)
    requires !a.Unknown?
    ensures InPrefix(a, Cidr(net, a.Width())) <==> a == net
  {
    if SameFamily(a, net) {
      WordsDecide(a.Words(), net.Words(), 0);
      assert Pow2(0) == 1;
      var x, y := a.Words(), net.Words();
      assert forall k :: 0 <= k < |x| ==> (WordAgrees(x[k], y[k], 0 - 32 * (|x| - 1 - k)) <==> x[k] == y[k]);
      if x == y {
        assert a.V6? ==> a.w0 == x[0] && a.w1 == x[1] && a.w2 == x[2] && a.w3 == x[3];
        assert net.V6? ==> net.w0 == y[0] && net.w1 == y[1] && net.w2 == y[2] && net.w3 == y[3];
        assert a.V4? ==> a.a == x[0] && net.a == y[0];
      }
    }
  }
}
