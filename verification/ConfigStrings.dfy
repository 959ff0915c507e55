/** Configuration sections: lines to items, values to string lists, and the memo of these lists. */
module ConfigStrings {

  const QUOTE := '"'
  const NUL := '\0'

  predicate Separates(c: char) {
    c == ' ' || c == '\t' || c == ','
  }

  // ---- the tokeniser ----

  /** Whether the reader is inside quotes after `c`. */
  function Toggle(txt: bool, c: char): bool {
    if c == QUOTE then !txt else txt
  }

  /**
   The tokens of the rest of a value. `txt` says that the reader is inside quotes; with `open`
   the first token continues the one that is being read.
   */
  function Tokens(s: string, txt: bool, open: bool): (ts: seq<string>)
    ensures open ==> |ts| >= 1
  {
    if s == "" then (if open then [""] else [])
    else
      var txt' := Toggle(txt, s[0]);
      if !txt' && Separates(s[0]) then
        (if open then [""] else []) + Tokens(s[1..], txt', false)
      else
        var rest := Tokens(s[1..], txt', true);
        [[s[0]] + rest[0]] + rest[1..]
  }

  /** What `get_strings` returns for a value: never an empty list. */
  function Tokenise(s: string): (ts: seq<string>)
    ensures |ts| >= 1
  {
    var ts := Tokens(s, false, false);
    if ts == [] then [""] else ts
  }

  /** The value up to its first null character, as a C string. */
  function CString(s: string): string {
    if s == "" || s[0] == NUL then "" else [s[0]] + CString(s[1..])
  }

  /** Tokens read so far, put together with what follows; the last one is still open or not. */
  function Continued(done: seq<string>, open: bool, rest: seq<string>): seq<string>
    requires open ==> |done| >= 1 && |rest| >= 1
  {
    if open then done[..|done| - 1] + [done[|done| - 1] + rest[0]] + rest[1..] else done + rest
  }

  lemma ContinueClosed(done: seq<string>, open: bool, rest: seq<string>)
    requires open ==> |done| >= 1
    ensures Continued(done, open, (if open then [""] else []) + rest) == Continued(done, false, rest)
  {
    if open {
      assert ([""] + rest)[1..] == rest;
      assert done[|done| - 1] + "" == done[|done| - 1];
      assert done[..|done| - 1] + [done[|done| - 1]] == done;
    }
  }

  /** One more character for the open token, or for a new one. */
  function Grown(done: seq<string>, open: bool, c: char): seq<string>
    requires open ==> |done| >= 1
  {
    if open then done[..|done| - 1] + [done[|done| - 1] + [c]] else done + [[c]]
  }

  lemma GrownByResize(done: seq<string>, c: char)
    ensures Grown(done + [""], true, c) == Grown(done, false, c)
  {
    assert (done + [""])[..|done|] == done;
    assert "" + [c] == [c];
  }

  lemma ContinueOpen(done: seq<string>, open: bool, c: char, rest: seq<string>)
    requires |rest| >= 1 && (open ==> |done| >= 1)
    ensures Continued(done, open, [[c] + rest[0]] + rest[1..]) == Continued(Grown(done, open, c), true, rest)
  {
    var next := [[c] + rest[0]] + rest[1..];
    assert next[1..] == rest[1..];
    if open {
      assert done[|done| - 1] + ([c] + rest[0]) == (done[|done| - 1] + [c]) + rest[0];
    } else {
      assert (done + [[c]])[..|done|] == done;
    }
  }

  /** Position `i` is reached with these tokens, and the rest of the value completes them. */
  ghost predicate Reading(val: string, i: nat, vls: seq<string>, txt: bool, open: bool) {
    && i <= |val| && (open ==> |vls| >= 1)
    && Continued(vls, open, Tokens(CString(val[i..]), txt, open)) == Tokens(CString(val), false, false)
  }

  lemma CStringStep(val: string, i: nat)
    requires i < |val| && val[i] != NUL
    ensures CString(val[i..]) == [val[i]] + CString(val[i + 1..])
    ensures CString(val[i..])[1..] == CString(val[i + 1..])
  {
    assert val[i..][1..] == val[i + 1..];
  }

  lemma ReadSeparator(val: string, i: nat, vls: seq<string>, txt: bool, open: bool)
    requires Reading(val, i, vls, txt, open) && i < |val| && val[i] != NUL
    requires !Toggle(txt, val[i]) && Separates(val[i])
    ensures Reading(val, i + 1, vls, false, false)
  {
    CStringStep(val, i);
    ContinueClosed(vls, open, Tokens(CString(val[i + 1..]), false, false));
  }

  lemma ReadChar(val: string, i: nat, vls: seq<string>, txt: bool, open: bool)
    requires Reading(val, i, vls, txt, open) && i < |val| && val[i] != NUL
    requires Toggle(txt, val[i]) || !Separates(val[i])
    ensures Reading(val, i + 1, Grown(vls, open, val[i]), Toggle(txt, val[i]), true)
  {
    CStringStep(val, i);
    ContinueOpen(vls, open, val[i], Tokens(CString(val[i + 1..]), Toggle(txt, val[i]), true));
  }

  lemma ReadEnd(val: string, i: nat, vls: seq<string>, txt: bool, open: bool)
    requires Reading(val, i, vls, txt, open) && (i == |val| || val[i] == NUL)
    ensures vls == Tokens(CString(val), false, false)
  {
    assert CString(val[i..]) == "";
    ContinueClosed(vls, open, []);
  }

  /** The character loop of `get_strings`; `open` stands for its pointer to the string being built. */
  method ReadStrings(val: string) returns (vls: seq<string>)
    ensures vls == Tokenise(CString(val))
  {
    vls := [];
    var txt, open, i := false, false, 0;
    assert val[0..] == val;
    while i < |val| && val[i] != NUL
      invariant Reading(val, i, vls, txt, open)
      decreases |val| - i
    {
      ghost var was := txt;
      if val[i] == QUOTE {
        txt := !txt;
      }
      if !txt && Separates(val[i]) {
        ReadSeparator(val, i, vls, was, open);
        open := false;
      } else {
        ReadChar(val, i, vls, was, open);
        if !open {
          GrownByResize(vls, val[i]);
          vls := vls + [""];
          open := true;
        }
        vls := vls[..|vls| - 1] + [vls[|vls| - 1] + [val[i]]];
      }
      i := i + 1;
    }
    ReadEnd(val, i, vls, txt, open);
    if |vls| == 0 {
      vls := [""];
    }
  }

  // ---- what the tokens are ----

  function Flatten(ts: seq<string>): string {
    if ts == [] then "" else ts[0] + Flatten(ts[1..])
  }

  /** A value without its unquoted separators. */
  function Stripped(s: string, txt: bool): string {
    if s == "" then ""
    else
      var txt' := Toggle(txt, s[0]);
      (if !txt' && Separates(s[0]) then "" else [s[0]]) + Stripped(s[1..], txt')
  }

  lemma {:induction false} FlattenTokens(s: string, txt: bool, open: bool)
    ensures Flatten(Tokens(s, txt, open)) == Stripped(s, txt)
  {
    if s != "" {
      var txt' := Toggle(txt, s[0]);
      if !txt' && Separates(s[0]) {
        var rest := Tokens(s[1..], txt', false);
        FlattenTokens(s[1..], txt', false);
        assert ([""] + rest)[1..] == rest && [] + rest == rest;
      } else {
        var rest := Tokens(s[1..], txt', true);
        FlattenTokens(s[1..], txt', true);
        assert ([[s[0]] + rest[0]] + rest[1..])[1..] == rest[1..];
        assert ([s[0]] + rest[0]) + Flatten(rest[1..]) == [s[0]] + (rest[0] + Flatten(rest[1..]));
      }
    } else {
      assert Flatten([""]) == "" + Flatten([]);
    }
  }

  predicate AllSeparate(g: string) {
    forall k :: 0 <= k < |g| ==> Separates(g[k])
  }

  /** Between two tokens stands a non-empty run of separators. */
  predicate Gaps(gaps: seq<string>) {
    forall k :: 0 <= k < |gaps| ==> gaps[k] != "" && AllSeparate(gaps[k])
  }

  /** The tokens with the first of the `gaps` between them. */
  function JoinWith(ts: seq<string>, gaps: seq<string>): string
    requires |ts| <= |gaps| + 1
  {
    if ts == [] then "" else if |ts| == 1 then ts[0] else ts[0] + gaps[0] + JoinWith(ts[1..], gaps[1..])
  }

  lemma JoinHead(t: string, rest: seq<string>, c: char, gaps: seq<string>)
    requires |rest| <= |gaps|
    ensures JoinWith([[c] + t] + rest, gaps) == [c] + JoinWith([t] + rest, gaps)
  {
    assert ([[c] + t] + rest)[1..] == rest && ([t] + rest)[1..] == rest;
    if rest != [] {
      var tail := JoinWith(rest, gaps[1..]);
      assert ([c] + t) + gaps[0] + tail == [c] + (t + gaps[0] + tail);
    }
  }

  lemma {:induction false} GapIsSkipped(g: string, s: string)
    requires AllSeparate(g)
    ensures Tokens(g + s, false, false) == Tokens(s, false, false)
  {
    if g == "" {
      assert g + s == s;
    } else {
      GapIsSkipped(g[1..], s);
      assert (g + s)[1..] == g[1..] + s;
      assert [] + Tokens(s, false, false) == Tokens(s, false, false);
    }
  }

  lemma GapEndsToken(g: string, s: string)
    requires g != "" && AllSeparate(g)
    ensures Tokens(g + s, false, true) == [""] + Tokens(s, false, false)
  {
    GapIsSkipped(g[1..], s);
    assert (g + s)[1..] == g[1..] + s;
  }

  lemma JoinEmptyFirst(rest: seq<string>, gaps: seq<string>)
    requires rest != [] && |rest| <= |gaps|
    ensures JoinWith([""] + rest, gaps) == gaps[0] + JoinWith(rest, gaps[1..])
  {
    var tail := JoinWith(rest, gaps[1..]);
    assert ([""] + rest)[1..] == rest;
    assert "" + gaps[0] + tail == gaps[0] + tail;
  }

  /** An open token that ends here, before tokens that are read back as themselves. */
  lemma JoinAfterBreak(rest: seq<string>, gaps: seq<string>)
    requires |rest| <= |gaps| && Gaps(gaps)
    requires rest != [] ==> Tokens(JoinWith(rest, gaps[1..]), false, false) == rest
    ensures Tokens(JoinWith([""] + rest, gaps), false, true) == [""] + rest
  {
    if rest == [] {
      assert [""] + rest == [""];
    } else {
      JoinEmptyFirst(rest, gaps);
      GapEndsToken(gaps[0], JoinWith(rest, gaps[1..]));
    }
  }

  lemma JoinAfterChar(rest: seq<string>, c: char, txt: bool, open: bool, gaps: seq<string>)
    requires 1 <= |rest| <= |gaps| + 1 && (Toggle(txt, c) || !Separates(c))
    requires Tokens(JoinWith(rest, gaps), Toggle(txt, c), true) == rest
    ensures var ts := [[c] + rest[0]] + rest[1..]; Tokens(JoinWith(ts, gaps), txt, open) == ts
  {
    JoinHead(rest[0], rest[1..], c, gaps);
    assert [rest[0]] + rest[1..] == rest;
    assert ([c] + JoinWith(rest, gaps))[1..] == JoinWith(rest, gaps);
  }

  lemma {:induction false} TokensOfJoin(s: string, txt: bool, open: bool, gaps: seq<string>)
    requires Gaps(gaps) && |Tokens(s, txt, open)| <= |gaps| + 1
    ensures Tokens(JoinWith(Tokens(s, txt, open), gaps), txt, open) == Tokens(s, txt, open)
  {
    if s != "" {
      var txt' := Toggle(txt, s[0]);
      if txt' || !Separates(s[0]) {
        TokensOfJoin(s[1..], txt', true, gaps);
        JoinAfterChar(Tokens(s[1..], txt', true), s[0], txt, open, gaps);
      } else {
        var rest := Tokens(s[1..], false, false);
        assert !txt && Tokens(s, txt, open) == (if open then [""] else []) + rest;
        if !open {
          TokensOfJoin(s[1..], false, false, gaps);
          assert [] + rest == rest;
        } else {
          if rest != [] {
            TokensOfJoin(s[1..], false, false, gaps[1..]);
          }
          JoinAfterBreak(rest, gaps);
        }
      }
    }
  }

  /** Tokens joined by any runs of separators are read back as the same tokens. */
  lemma TokeniseIsStable(s: string, gaps: seq<string>)
    requires Gaps(gaps) && |Tokenise(s)| <= |gaps| + 1
    ensures Tokenise(JoinWith(Tokenise(s), gaps)) == Tokenise(s)
  {
    TokensOfJoin(s, false, false, gaps);
  }

  /** The tokens together are the value without its unquoted separators. */
  lemma TokensLoseOnlySeparators(s: string)
    ensures Flatten(Tokenise(s)) == Stripped(s, false)
  {
    FlattenTokens(s, false, false);
    assert Flatten([""]) == "" + Flatten([]);
  }

  // ---- items and sections ----

  datatype Item = Item(val: string, vls: seq<string>)

  /** The memo is empty or holds the tokens of the current value. */
  predicate MemoOK(item: Item) {
    item.vls == [] || item.vls == Tokenise(CString(item.val))
  }

  ghost predicate MemosOK(items: map<string, Item>) {
    forall k :: k in items ==> MemoOK(items[k])
  }

  /** `strim`: cuts blanks off both ends, but leaves a string of blanks alone. */
  function Strim(s: string): string {
    var t := TrimFront(s);
    if t == "" then s else TrimBack(t)
  }

  function TrimFront(s: string): string {
    if s != "" && s[0] == ' ' then TrimFront(s[1..]) else s
  }

  function TrimBack(s: string): string {
    if s != "" && s[|s| - 1] == ' ' then TrimBack(s[..|s| - 1]) else s
  }

  /** Position of the first `=`, or the length of the line. */
  function FirstEq(ln: string): (i: nat)
    ensures i <= |ln|
    ensures i < |ln| ==> ln[i] == '='
    ensures forall k :: 0 <= k < i ==> ln[k] != '='
  {
    if ln == "" || ln[0] == '=' then 0 else 1 + FirstEq(ln[1..])
  }

  function KeyOf(ln: string): string {
    Strim(ln[..FirstEq(ln)])
  }

  function Unquoted(v: string): string {
    var v1 := if v != "" && v[0] == QUOTE then v[1..] else v;
    if v1 != "" && v1[|v1| - 1] == QUOTE then v1[..|v1| - 1] else v1
  }

  function ValueOf(ln: string): string {
    Unquoted(Strim(if FirstEq(ln) < |ln| then ln[FirstEq(ln) + 1..] else ""))
  }

  function Lower(s: string): string {
    seq(|s|, i requires 0 <= i < |s| => if 'A' <= s[i] <= 'Z' then s[i] - 'A' + 'a' else s[i])
  }

  /** Names are compared without regard to case, and an empty name is nobody's. */
  predicate SameName(known: string, name: string) {
    name != "" && Lower(known) == Lower(name)
  }

  class Section {
    const name: string
    var items: map<string, Item>

    constructor (name: string)
      ensures this.name == name && items == map[]
    {
      this.name := name;
      items := map[];
    }

    /** `get_strings`: the memo when there is one, else the tokens, which become the memo. */
    method GetStrings(key: string) returns (vls: seq<string>)
      requires MemosOK(items)
      modifies this
      ensures MemosOK(items) && items.Keys == old(items.Keys)
      ensures forall k :: k in items ==> items[k].val == old(items)[k].val
      ensures vls == if key in items then Tokenise(CString(items[key].val)) else []
      ensures key in items ==> items == old(items)[key := Item(old(items)[key].val, vls)]
    {
      if key !in items {
        return [];
      }
      var item := items[key];
      if |item.vls| > 0 {
        return item.vls;
      }
      vls := ReadStrings(item.val);
      items := items[key := item.(vls := vls)];
    }

    /** The merging loop of `add_sect`: every item of `sc` is set, or replaces the one of its name. */
    method Merge(sc: Section)
      requires sc != this
      modifies this
      ensures items == old(items) + sc.items
    {
      var todo := sc.items.Keys;
      while todo != {}
        invariant todo <= sc.items.Keys
        invariant items == old(items) + (sc.items - todo)
        decreases todo
      {
        var k :| k in todo;
        items := items[k := sc.items[k]];
        todo := todo - {k};
      }
      assert sc.items - {} == sc.items;
    }
  }

  /** The character loop of `add_item`: what is before the first `=`, and what is behind it. */
  method SplitLine(ln: string) returns (k: string, v: string)
    ensures k == ln[..FirstEq(ln)]
    ensures v == if FirstEq(ln) < |ln| then ln[FirstEq(ln) + 1..] else ""
  {
    var b := false;
    k, v := "", "";
    ghost var eq := FirstEq(ln);
    for i := 0 to |ln|
      invariant b == (eq < i)
      invariant k == ln[..if i < eq then i else eq]
      invariant v == if eq < i then ln[eq + 1..i] else ""
    {
      if !b && ln[i] == '=' {
        b := true;
      } else if !b {
        k := k + [ln[i]];
      } else {
        v := v + [ln[i]];
      }
    }
    assert eq < |ln| ==> ln[eq + 1..|ln|] == ln[eq + 1..];
  }

  /** One quote off each end. */
  method Unquote(s: string) returns (v: string)
    ensures v == Unquoted(s)
  {
    v := s;
    if v != "" && v[0] == QUOTE {
      v := v[1..];
    }
    if v != "" && v[|v| - 1] == QUOTE {
      v := v[..|v| - 1];
    }
  }

  /** `add_item`: splits the line at its first `=`, trims both sides, and takes one quote off each end of the value. */
  method AddItem(sc: Section, ln: string)
    requires MemosOK(sc.items)
    modifies sc
    ensures MemosOK(sc.items)
    ensures sc.items == if ln == "" || KeyOf(ln) == "" then old(sc.items)
                        else old(sc.items)[KeyOf(ln) := Item(ValueOf(ln), [])]
  {
    if |ln| == 0 {
      return;
    }
    var k, v := SplitLine(ln);
    k, v := Strim(k), Strim(v);
    assert k == KeyOf(ln);
    v := Unquote(v);
    assert v == ValueOf(ln);
    if k != "" {
      sc.items := sc.items[k := Item(v, [])];
    }
  }

  class Configuration {
    var sects: seq<Section>

    ghost predicate Valid()
      reads this, sects
    {
      && (forall i, j :: 0 <= i < j < |sects| ==> sects[i] != sects[j])
      && forall i :: 0 <= i < |sects| ==> MemosOK(sects[i].items)
    }

    constructor ()
      ensures Valid() && sects == []
    {
      sects := [];
    }

    /** `find_section` without a class: the first section of that name, or none for an empty name. */
    method FindSection(name: string) returns (i: nat)
      ensures i <= |sects|
      ensures i < |sects| ==> SameName(sects[i].name, name)
      ensures forall j :: 0 <= j < i ==> !SameName(sects[j].name, name)
    {
      if |name| == 0 {
        return |sects|;
      }
      i := 0;
      while i < |sects| && Lower(sects[i].name) != Lower(name)
        invariant 0 <= i <= |sects|
        invariant forall j :: 0 <= j < i ==> !SameName(sects[j].name, name)
      {
        i := i + 1;
      }
    }

    /** `add_sect`: a section of a known name is merged into the first one of that name, else appended. */
    method AddSection(sc: Section)
      requires Valid() && sc !in sects && MemosOK(sc.items)
      modifies this, sects
      ensures Valid() && sc.items == old(sc.items)
      ensures var known := old(sects);
              if exists i :: 0 <= i < |known| && SameName(known[i].name, sc.name)
              then sects == known
                   && exists i :: 0 <= i < |known| && SameName(known[i].name, sc.name)
                        && (forall j :: 0 <= j < i ==> !SameName(known[j].name, sc.name))
                        && known[i].items == old(known[i].items) + sc.items
                        && (forall j :: 0 <= j < |known| && j != i ==> known[j].items == old(known[j].items))
              else sects == known + [sc] && forall j :: 0 <= j < |known| ==> known[j].items == old(known[j].items)
    {
      var i := FindSection(sc.name);
      if i == |sects| {
        sects := sects + [sc];
      } else {
        sects[i].Merge(sc);
      }
    }
  }
}
