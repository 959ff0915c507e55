/** What tokens, trimmed values and section names are, in terms of the characters of a value. */
module ConfigLaws {
  import opened Seqs
  import opened ConfigStrings

  // ---- tokens as stretches of a value ----

  /** Number of quotes before position `i`. */
  function Quotes(s: string, i: nat): nat
    requires i <= |s|
  {
    if i == 0 then 0 else Quotes(s, i - 1) + (if s[i - 1] == '"' then 1 else 0)
  }

  predicate Inside(s: string, i: nat)
    requires i <= |s|
  {
    Quotes(s, i) % 2 == 1
  }

  /** A blank, tab or comma outside quotes. */
  predicate SepAt(s: string, i: int) {
    0 <= i < |s| && (s[i] == ' ' || s[i] == '\t' || s[i] == ',') && !Inside(s, i)
  }

  datatype Span = Span(lo: nat, hi: nat)

  function Texts(s: string, spans: seq<Span>): seq<string>
    requires forall k :: 0 <= k < |spans| ==> spans[k].lo <= spans[k].hi <= |s|
  {
    seq(|spans|, k requires 0 <= k < |spans| => s[spans[k].lo..spans[k].hi])
  }

  ghost predicate In(spans: seq<Span>, p: int) {
    exists k :: 0 <= k < |spans| && spans[k].lo <= p < spans[k].hi
  }

  /** In order, from `i` on, and not empty; with `open` the first one starts at `i` and may be empty. */
  ghost predicate Ordered(s: string, i: nat, open: bool, spans: seq<Span>) {
    && i <= |s|
    && (open ==> spans != [] && spans[0].lo == i)
    && (forall k :: 0 <= k < |spans| ==> i <= spans[k].lo <= spans[k].hi <= |s|)
    && (forall k :: 0 <= k < |spans| ==> spans[k].lo < spans[k].hi || (open && k == 0))
    && (forall j, k :: 0 <= j < k < |spans| ==> spans[j].hi < spans[k].lo)
  }

  /** The stretches from position `i` on cover what does not separate, and are apart from each other. */
  ghost predicate Laid(s: string, i: nat, open: bool, spans: seq<Span>) {
    Ordered(s, i, open, spans) && forall p :: i <= p < |s| ==> (In(spans, p) <==> !SepAt(s, p))
  }

  lemma InTail(x: Span, rest: seq<Span>, p: int)
    ensures In([x] + rest, p) <==> x.lo <= p < x.hi || In(rest, p)
  {
    var spans := [x] + rest;
    assert spans[0] == x && forall k :: 0 <= k < |rest| ==> spans[k + 1] == rest[k];
  }

  /** A separator in front: the open stretch ends at once. */
  lemma LaidSeparator(s: string, i: nat, rest: seq<Span>)
    requires i < |s| && SepAt(s, i) && Laid(s, i + 1, false, rest)
    ensures Laid(s, i, false, rest) && Laid(s, i, true, [Span(i, i)] + rest)
  {
    forall p | i <= p < |s|
      ensures In([Span(i, i)] + rest, p) <==> !SepAt(s, p)
      ensures In(rest, p) <==> !SepAt(s, p)
    {
      InTail(Span(i, i), rest, p);
    }
  }

  /** Any other character in front: it joins the first stretch. */
  lemma LaidChar(s: string, i: nat, open: bool, rest: seq<Span>)
    requires i < |s| && !SepAt(s, i) && Laid(s, i + 1, true, rest)
    ensures Laid(s, i, open, [Span(i, rest[0].hi)] + rest[1..])
  {
    assert rest == [rest[0]] + rest[1..];
    forall p | i <= p < |s|
      ensures In([Span(i, rest[0].hi)] + rest[1..], p) <==> !SepAt(s, p)
    {
      InTail(rest[0], rest[1..], p);
      InTail(Span(i, rest[0].hi), rest[1..], p);
    }
  }

  lemma TextsOfChar(s: string, i: nat, rest: seq<Span>)
    requires i < |s| && Ordered(s, i + 1, true, rest)
    ensures var spans := [Span(i, rest[0].hi)] + rest[1..];
            && (forall k :: 0 <= k < |spans| ==> spans[k].lo <= spans[k].hi <= |s|)
            && Texts(s, spans) == [[s[i]] + Texts(s, rest)[0]] + Texts(s, rest)[1..]
  {
    var spans := [Span(i, rest[0].hi)] + rest[1..];
    assert s[i..rest[0].hi] == [s[i]] + s[i + 1..rest[0].hi];
    assert forall k :: 1 <= k < |spans| ==> spans[k] == rest[k];
    var xs, ys := Texts(s, spans), Texts(s, rest);
    assert rest[0].lo == i + 1 && ys[0] == s[i + 1..rest[0].hi] && xs[0] == [s[i]] + ys[0];
    assert |xs| == |ys| && forall k :: 1 <= k < |xs| ==> xs[k] == ys[k];
    assert xs == [xs[0]] + ys[1..];
  }

  lemma TextsOfSeparator(s: string, i: nat, rest: seq<Span>)
    requires i < |s| && Ordered(s, i + 1, false, rest)
    ensures var spans := [Span(i, i)] + rest;
            && (forall k :: 0 <= k < |spans| ==> spans[k].lo <= spans[k].hi <= |s|)
            && Texts(s, spans) == [""] + Texts(s, rest)
  {
    var spans := [Span(i, i)] + rest;
    assert s[i..i] == "";
    assert forall k :: 1 <= k < |spans| ==> spans[k] == rest[k - 1];
  }

  lemma {:induction false} TokensAreLaid(s: string, i: nat, open: bool) returns (spans: seq<Span>)
    requires i <= |s|
    ensures Laid(s, i, open, spans) && Texts(s, spans) == Tokens(s[i..], Inside(s, i), open)
    decreases |s| - i
  {
    if i == |s| {
      spans := if open then [Span(i, i)] else [];
    } else {
      assert s[i..][0] == s[i] && s[i..][1..] == s[i + 1..];
      assert Toggle(Inside(s, i), s[i]) == Inside(s, i + 1);
      if SepAt(s, i) {
        var rest := TokensAreLaid(s, i + 1, false);
        LaidSeparator(s, i, rest);
        TextsOfSeparator(s, i, rest);
        spans := if open then [Span(i, i)] + rest else rest;
        assert [] + Texts(s, rest) == Texts(s, rest);
      } else {
        var rest := TokensAreLaid(s, i + 1, true);
        LaidChar(s, i, open, rest);
        TextsOfChar(s, i, rest);
        spans := [Span(i, rest[0].hi)] + rest[1..];
      }
    }
  }

  /**
   The tokens of a value are its longest stretches without a separator, in order, where a blank, a
   tab or a comma separates unless it is inside quotes; a value without any has one empty token.
   */
  lemma TokensAreStretches(s: string, spans: seq<Span>)
    requires Laid(s, 0, false, spans)
    ensures Tokenise(s) == if spans == [] then [""] else Texts(s, spans)
  {
    var found := TokensAreLaid(s, 0, false);
    assert s[0..] == s;
    LaidOnce(s, 0, spans, found);
    assert |Texts(s, spans)| == |spans|;
  }

  lemma StretchesExist(s: string)
    ensures exists spans :: Laid(s, 0, false, spans)
  {
    var spans := TokensAreLaid(s, 0, false);
  }

  /** There is only one way to lay the stretches. */
  lemma {:induction false} LaidOnce(s: string, i: nat, xs: seq<Span>, ys: seq<Span>)
    requires Laid(s, i, false, xs) && Laid(s, i, false, ys)
    ensures xs == ys
    decreases |s| - i
  {
    if xs != [] && ys != [] {
      SameFirst(s, i, xs, ys);
      SameFirst(s, i, ys, xs);
      LaidTail(s, i, xs);
      LaidTail(s, i, ys);
      LaidOnce(s, xs[0].hi, xs[1..], ys[1..]);
      assert xs == [xs[0]] + xs[1..] && ys == [ys[0]] + ys[1..];
    } else if xs != [] {
      assert In(xs, xs[0].lo);
    } else if ys != [] {
      assert In(ys, ys[0].lo);
    }
  }

  lemma SameFirst(s: string, i: nat, xs: seq<Span>, ys: seq<Span>)
    requires Laid(s, i, false, xs) && Laid(s, i, false, ys) && xs != [] && ys != []
    ensures ys[0].lo <= xs[0].lo && (ys[0].lo == xs[0].lo ==> ys[0].hi >= xs[0].hi)
  {
    var p, q := xs[0].lo, ys[0].hi;
    assert In(xs, p);
    assert In(ys, p);
    var k :| 0 <= k < |ys| && ys[k].lo <= p < ys[k].hi;
    assert !In(ys, q);
    assert p <= q < xs[0].hi ==> In(xs, q);
  }

  lemma LaidTail(s: string, i: nat, xs: seq<Span>)
    requires Laid(s, i, false, xs) && xs != []
    ensures Laid(s, xs[0].hi, false, xs[1..])
  {
    assert xs == [xs[0]] + xs[1..];
    forall p | xs[0].hi <= p < |s|
      ensures In(xs[1..], p) <==> !SepAt(s, p)
    {
      InTail(xs[0], xs[1..], p);
    }
  }

  // ---- values and names ----

  /** A C string ends before the first null character. */
  lemma {:induction false} CStringIsPrefix(s: string)
    ensures CString(s) <= s && '\0' !in CString(s)
    ensures |CString(s)| < |s| ==> s[|CString(s)|] == '\0'
  {
    if s != "" && s[0] != '\0' {
      CStringIsPrefix(s[1..]);
      assert s == [s[0]] + s[1..];
    }
  }

  predicate Blanks(s: string) {
    forall i :: 0 <= i < |s| ==> s[i] == ' '
  }

  lemma {:induction false} TrimFrontIs(s: string) returns (n: nat)
    ensures n <= |s| && TrimFront(s) == s[n..] && Blanks(s[..n])
    ensures n < |s| ==> s[n] != ' '
  {
    if s != "" && s[0] == ' ' {
      var m := TrimFrontIs(s[1..]);
      n := m + 1;
      assert s[1..][..m] == s[1..n];
      assert forall i :: 1 <= i < n ==> s[i] == s[1..][..m][i - 1];
    } else {
      n := 0;
    }
  }

  lemma {:induction false} TrimBackIs(s: string) returns (n: nat)
    ensures n <= |s| && TrimBack(s) == s[..n] && Blanks(s[n..])
    ensures n > 0 ==> s[n - 1] != ' '
  {
    if s != "" && s[|s| - 1] == ' ' {
      n := TrimBackIs(s[..|s| - 1]);
      assert forall i :: n <= i < |s| - 1 ==> s[i] == s[..|s| - 1][n..][i - n];
    } else {
      n := |s|;
    }
  }

  /** Trimming cuts exactly the blanks at both ends, and leaves a string of blanks as it is. */
  lemma StrimIs(s: string)
    ensures if Blanks(s) then Strim(s) == s
            else exists i: nat, j: nat ::
                   && i < j <= |s| && Strim(s) == s[i..j]
                   && Blanks(s[..i]) && Blanks(s[j..]) && s[i] != ' ' && s[j - 1] != ' '
  {
    var i := TrimFrontIs(s);
    if i < |s| {
      var n := TrimBackIs(s[i..]);
      assert s[i..][0] != ' ';
      assert forall k :: n <= k < |s[i..]| ==> s[i..][k] == s[i..][n..][k - n];
      var j := i + n;
      assert s[i..][n..] == s[j..] && s[i..][..n] == s[i..j];
      assert !Blanks(s);
    } else {
      assert s[..i] == s;
    }
  }

  /** One quote goes from each end that has one, and nothing else. */
  lemma UnquotedIs(core: string)
    requires core != "" && core[0] != '"' && core[|core| - 1] != '"'
    ensures Unquoted(core) == core && Unquoted(['"'] + core + ['"']) == core
    ensures Unquoted(['"'] + core) == core && Unquoted(core + ['"']) == core
    ensures Unquoted(['"', '"'] + core) == ['"'] + core
  {
    assert (['"'] + core + ['"'])[1..] == core + ['"'];
    assert (core + ['"'])[..|core|] == core;
    assert (['"'] + core)[1..] == core;
    assert (['"', '"'] + core)[1..] == ['"'] + core;
  }

  lemma UnquotedShort()
    ensures Unquoted("") == "" && Unquoted("\"") == "" && Unquoted("\"\"") == ""
  {
    assert "\"\""[1..] == "\"";
    assert "\""[1..] == "";
  }

  predicate Solid(s: string) {
    s != "" && s[0] != ' ' && s[|s| - 1] != ' '
  }

  lemma {:induction false} TrimFrontOf(l: string, s: string)
    requires Blanks(l) && s != "" && s[0] != ' '
    ensures TrimFront(l + s) == s
  {
    if l == "" {
      assert l + s == s;
    } else {
      TrimFrontOf(l[1..], s);
      assert (l + s)[1..] == l[1..] + s;
    }
  }

  lemma {:induction false} TrimBackOf(s: string, r: string)
    requires Blanks(r) && s != "" && s[|s| - 1] != ' '
    ensures TrimBack(s + r) == s
  {
    if r == "" {
      assert s + r == s;
    } else {
      TrimBackOf(s, r[..|r| - 1]);
      assert (s + r)[..|s + r| - 1] == s + r[..|r| - 1];
    }
  }

  lemma StrimOf(l: string, s: string, r: string)
    requires Blanks(l) && Blanks(r) && Solid(s)
    ensures Strim(l + s + r) == s
  {
    assert l + s + r == l + (s + r);
    TrimFrontOf(l, s + r);
    TrimBackOf(s, r);
  }

  lemma {:induction false} FirstEqAt(k: string, v: string)
    requires '=' !in k
    ensures FirstEq(k + "=" + v) == |k|
  {
    if k == "" {
      assert k + "=" + v == "=" + v;
    } else {
      FirstEqAt(k[1..], v);
      assert (k + "=" + v)[1..] == k[1..] + "=" + v;
    }
  }

  /** A line gives the item of its trimmed name, with the trimmed value, quoted or not. */
  lemma LineMeans(l1: string, key: string, r1: string, l2: string, val: string, r2: string)
    requires Blanks(l1) && Blanks(r1) && Blanks(l2) && Blanks(r2)
    requires Solid(key) && '=' !in key && Solid(val) && val[0] != '"' && val[|val| - 1] != '"'
    ensures var ln := (l1 + key + r1) + "=" + (l2 + val + r2); KeyOf(ln) == key && ValueOf(ln) == val
    ensures var ln := (l1 + key + r1) + "=" + (l2 + (['"'] + val + ['"']) + r2); KeyOf(ln) == key && ValueOf(ln) == val
  {
    var quoted := ['"'] + val + ['"'];
    assert forall i :: 0 <= i < |l1 + key + r1| ==> (l1 + key + r1)[i] == ' ' || (l1 + key + r1)[i] in key;
    StrimOf(l1, key, r1);
    UnquotedIs(val);
    LineOf(l1 + key + r1, l2 + val + r2);
    StrimOf(l2, val, r2);
    LineOf(l1 + key + r1, l2 + quoted + r2);
    StrimOf(l2, quoted, r2);
  }

  lemma LineOf(k: string, v: string)
    requires '=' !in k
    ensures KeyOf(k + "=" + v) == Strim(k) && ValueOf(k + "=" + v) == Unquoted(Strim(v))
  {
    FirstEqAt(k, v);
    assert (k + "=" + v)[..|k|] == k && (k + "=" + v)[|k| + 1..] == v;
  }

  predicate IsUpperOf(u: char, l: char) {
    'A' <= u <= 'Z' && l as int == u as int + 32
  }

  /** A section has a name exactly when the two agree up to the case of letters and it is not empty. */
  lemma SameNameIff(known: string, name: string)
    ensures SameName(known, name) <==>
              && name != "" && |known| == |name|
              && forall i :: 0 <= i < |name| ==>
                   known[i] == name[i] || IsUpperOf(known[i], name[i]) || IsUpperOf(name[i], known[i])
  {
    if |known| == |name| {
      forall i | 0 <= i < |name|
        ensures Lower(known)[i] == Lower(name)[i]
                <==> known[i] == name[i] || IsUpperOf(known[i], name[i]) || IsUpperOf(name[i], known[i])
      {
      }
      assert Lower(known) == Lower(name) <==> forall i :: 0 <= i < |name| ==> Lower(known)[i] == Lower(name)[i];
    } else {
      assert |Lower(known)| != |Lower(name)|;
    }
  }
}
