/** The line-ending converter for char strings. */
module LineEndings {

  const CR := '\r'
  const LF := '\n'

  const WIN := "\r\n"
  const MAC := "\r"
  const UNIX := "\n"

  predicate Breaks(c: char) {
    c == CR || c == LF
  }

  /**
   What a conversion yields for the rest of a string; `afterCr` says that the character before
   it was a carriage return, so that a line feed only completes that line end.
   */
  function Convert(s: string, eol: string, afterCr: bool): string {
    if s == "" then ""
    else if s[0] == CR then eol + Convert(s[1..], eol, true)
    else if s[0] == LF then (if afterCr then "" else eol) + Convert(s[1..], eol, false)
    else [s[0]] + Convert(s[1..], eol, false)
  }

  predicate AfterCr(s: string, i: nat)
    requires i <= |s|
  {
    i > 0 && s[i - 1] == CR
  }

  function Rest(s: string, eol: string, i: nat): string
    requires i <= |s|
  {
    Convert(s[i..], eol, AfterCr(s, i))
  }

  function Emitted(s: string, eol: string, i: nat): string
    requires i < |s|
  {
    if !Breaks(s[i]) then [s[i]] else if s[i] == LF && AfterCr(s, i) then "" else eol
  }

  lemma RestStep(s: string, eol: string, i: nat)
    requires i < |s|
    ensures Rest(s, eol, i) == Emitted(s, eol, i) + Rest(s, eol, i + 1)
  {
    assert s[i..][1..] == s[i + 1..];
  }

  /** The run that starts at the marker and waits to be copied. */
  function Run(s: string, l: nat, i: nat): string
    requires i <= |s|
  {
    if l < i then s[l..i] else ""
  }

  lemma Assoc(x: string, y: string, z: string)
    ensures x + (y + z) == (x + y) + z
  {
  }

  /** The converter with its marker `l` of the run that waits to be copied (`|s|` for none). */
  method CrlfTo(s: string, eol: string) returns (ret: string)
    ensures ret == Convert(s, eol, false)
  {
    if |s| == 0 {
      return s;
    }
    ret := "";
    var l: nat, i: nat := |s|, 0;
    assert s[0..] == s;
    while i != |s|
      invariant 0 <= i <= |s| && (l < i || l == |s|)
      invariant (ret + Run(s, l, i)) + Rest(s, eol, i) == Convert(s, eol, false)
      decreases |s| - i
    {
      ghost var done := ret + Run(s, l, i);
      RestStep(s, eol, i);
      Assoc(done, Emitted(s, eol, i), Rest(s, eol, i + 1));
      if s[i] == CR || s[i] == LF {
        if l != |s| {
          ret := ret + s[l..i];
          l := |s|;
        }
        assert ret == done;
        if s[i] != LF || i == 0 || s[i - 1] != CR {
          ret := ret + eol;
        }
        assert ret + "" == done + Emitted(s, eol, i);
      } else {
        if l == |s| {
          l := i;
        }
        assert s[l..i + 1] == s[l..i] + [s[i]];
        assert ret + s[l..i + 1] == done + [s[i]];
      }
      i := i + 1;
    }
    if l != |s| {
      ret := ret + s[l..];
      assert s[l..] == s[l..|s|];
    }
  }

  // ---- the lines of a string ----

  /** The contents of the lines of a string, whatever ends them; there is always a last one. */
  function Lines(s: string, afterCr: bool): (ls: seq<string>)
    ensures |ls| >= 1
  {
    if s == "" then [""]
    else if s[0] == CR then [""] + Lines(s[1..], true)
    else if s[0] == LF then (if afterCr then Lines(s[1..], false) else [""] + Lines(s[1..], false))
    else
      var rest := Lines(s[1..], false);
      [[s[0]] + rest[0]] + rest[1..]
  }

  function Join(ls: seq<string>, eol: string): string
    requires |ls| >= 1
  {
    if |ls| == 1 then ls[0] else ls[0] + eol + Join(ls[1..], eol)
  }

  predicate Target(eol: string) {
    eol == WIN || eol == MAC || eol == UNIX
  }

  lemma JoinEmptyLine(ls: seq<string>, eol: string)
    requires |ls| >= 1
    ensures Join([""] + ls, eol) == eol + Join(ls, eol)
  {
    assert ([""] + ls)[1..] == ls;
  }

  lemma JoinLongerLine(c: char, ls: seq<string>, eol: string)
    requires |ls| >= 1
    ensures Join([[c] + ls[0]] + ls[1..], eol) == [c] + Join(ls, eol)
  {
    assert ([[c] + ls[0]] + ls[1..])[1..] == ls[1..];
    if |ls| > 1 {
      assert [c] + (ls[0] + eol + Join(ls[1..], eol)) == ([c] + ls[0]) + eol + Join(ls[1..], eol);
    }
  }

  /** Conversion writes the same lines with the wanted end between them. */
  lemma {:induction false} ConvertJoinsLines(s: string, eol: string, afterCr: bool)
    ensures Convert(s, eol, afterCr) == Join(Lines(s, afterCr), eol)
  {
    if s != "" {
      ConvertJoinsLines(s[1..], eol, s[0] == CR);
      if Breaks(s[0]) {
        JoinEmptyLine(Lines(s[1..], s[0] == CR), eol);
      } else {
        JoinLongerLine(s[0], Lines(s[1..], false), eol);
      }
    }
  }

  /** Conversion to any of the three targets preserves the sequence of line contents. */
  lemma {:induction false} ConvertKeepsLines(s: string, eol: string, afterCr: bool, q: bool)
    requires Target(eol) && (q ==> eol == MAC)
    ensures Lines(Convert(s, eol, afterCr), q) == Lines(s, afterCr)
  {
    if s != "" {
      if s[0] == CR {
        LineEndIsOneBreak(eol, Convert(s[1..], eol, true), q);
        ConvertKeepsLines(s[1..], eol, true, eol == MAC);
      } else if s[0] == LF {
        if afterCr {
          ConvertKeepsLines(s[1..], eol, false, q);
          assert "" + Convert(s[1..], eol, false) == Convert(s[1..], eol, false);
        } else {
          LineEndIsOneBreak(eol, Convert(s[1..], eol, false), q);
          ConvertKeepsLines(s[1..], eol, false, eol == MAC);
        }
      } else {
        ConvertKeepsLines(s[1..], eol, false, false);
        assert ([s[0]] + Convert(s[1..], eol, false))[1..] == Convert(s[1..], eol, false);
      }
    }
  }

  /** A line end in front of a string makes exactly one empty line in front of its lines. */
  lemma LineEndIsOneBreak(eol: string, x: string, q: bool)
    requires Target(eol) && (q ==> eol == MAC)
    ensures Lines(eol + x, q) == [""] + Lines(x, eol == MAC)
  {
    assert (eol + x)[|eol|..] == x;
    if eol == WIN {
      assert (eol + x)[1..] == "\n" + x;
      assert ("\n" + x)[1..] == x;
    }
  }

  /** Whatever was converted before, the last conversion decides, and no line is changed. */
  lemma ConversionIsNormalForm(s: string, a: string, b: string)
    requires Target(a) && Target(b)
    ensures Convert(Convert(s, b, false), a, false) == Convert(s, a, false)
    ensures Lines(Convert(s, b, false), false) == Lines(s, false)
  {
    ConvertKeepsLines(s, b, false, false);
    ConvertJoinsLines(Convert(s, b, false), a, false);
    ConvertJoinsLines(s, a, false);
  }

  predicate NoBreak(x: string) {
    '\r' !in x && '\n' !in x
  }

  /** A line without any line end is itself, converted or not. */
  lemma {:induction false} PlainLine(x: string, eol: string, afterCr: bool)
    requires NoBreak(x)
    ensures Convert(x, eol, afterCr) == x && Lines(x, afterCr) == [x]
  {
    if x != "" {
      PlainLine(x[1..], eol, false);
      assert x == [x[0]] + x[1..];
    }
  }

  /**
   A line that ends in `e`, which is one of the three line ends, is the first line, and conversion
   gives it the wanted end; a carriage return alone is one unless a line feed follows.
   */
  lemma {:induction false} FirstLine(x: string, e: string, y: string, eol: string, afterCr: bool)
    requires NoBreak(x) && (e == "\r\n" || e == "\n" || (e == "\r" && (y == "" || y[0] != '\n')))
    requires x != "" || !afterCr
    ensures Convert(x + e + y, eol, afterCr) == x + eol + Convert(y, eol, false)
    ensures Lines(x + e + y, afterCr) == [x] + Lines(y, false)
  {
    if x == "" {
      assert x + e + y == e + y;
      EndFirst(e, y, eol);
      assert x + eol + Convert(y, eol, false) == eol + Convert(y, eol, false);
    } else {
      var s := x + e + y;
      assert s[0] == x[0] && s[1..] == x[1..] + e + y;
      FirstLine(x[1..], e, y, eol, false);
      assert x == [x[0]] + x[1..];
      assert x + eol + Convert(y, eol, false) == [x[0]] + (x[1..] + eol + Convert(y, eol, false));
    }
  }

  lemma EndFirst(e: string, y: string, eol: string)
    requires e == "\r\n" || e == "\n" || (e == "\r" && (y == "" || y[0] != '\n'))
    ensures Convert(e + y, eol, false) == eol + Convert(y, eol, false)
    ensures Lines(e + y, false) == [""] + Lines(y, false)
  {
    assert (e + y)[|e|..] == y;
    if e == "\r\n" {
      assert (e + y)[1..] == "\n" + y && ("\n" + y)[1..] == y;
      assert "" + Convert(y, eol, false) == Convert(y, eol, false);
    } else if e == "\r" && y != "" {
      AfterCrOnly(y, eol);
    }
  }

  /** The flag matters before a line feed only. */
  lemma AfterCrOnly(y: string, eol: string)
    requires y != "" && y[0] != '\n'
    ensures Convert(y, eol, true) == Convert(y, eol, false) && Lines(y, true) == Lines(y, false)
  {
  }
}
