/** Normalising the whitespace of extracted text: lines trimmed and single-spaced, runs of blank
    lines squeezed. */
module HtmlText {

  predicate IsSpace(c: char) {
    c in {'\t', '\n', '\U{0b}', '\U{0c}', '\r', ' ', '\U{85}', '\U{a0}', '\U{1680}', '\U{2028}', '\U{2029}', '\U{202f}', '\U{205f}', '\U{3000}'}
    || '\U{2000}' <= c <= '\U{200a}'
  }

  // ---- Words and lines ----

  /** The maximal runs of non-space characters. */
  function Fields(s: string): seq<string> {
    if s == "" then []
    else if IsSpace(s[0]) then Fields(s[1..])
    else if |s| > 1 && !IsSpace(s[1]) && Fields(s[1..]) != [] then
      [[s[0]] + Fields(s[1..])[0]] + Fields(s[1..])[1..]
    else [[s[0]]] + Fields(s[1..])
  }

  function Split(s: string): (lines: seq<string>)
    ensures lines != []
  {
    if s == "" then [""]
    else if s[0] == '\n' then [""] + Split(s[1..])
    else [[s[0]] + Split(s[1..])[0]] + Split(s[1..])[1..]
  }

  function Join(parts: seq<string>, sep: string): string {
    if parts == [] then "" else if |parts| == 1 then parts[0] else parts[0] + sep + Join(parts[1..], sep)
  }

  function Tidied(line: string): string {
    Join(Fields(line), " ")
  }

  predicate Word(w: string) {
    w != "" && forall c | c in w :: !IsSpace(c)
  }

  lemma {:induction false} FieldsAreWords(s: string)
    ensures forall w | w in Fields(s) :: Word(w)
    ensures s != "" && !IsSpace(s[0]) ==> Fields(s) != []
  {
    if s != "" {
      FieldsAreWords(s[1..]);
      var rest := Fields(s[1..]);
      if !IsSpace(s[0]) && rest != [] {
        assert rest[0] in rest && Word([s[0]] + rest[0]);
        assert forall w | w in rest[1..] :: w in rest;
      }
    }
  }

  /** A space separates the words before it from those after it. */
  lemma {:induction false} FieldsAround(a: string, sp: char, b: string)
    requires IsSpace(sp)
    ensures Fields(a + [sp] + b) == Fields(a) + Fields(b)
  {
    var s := a + [sp] + b;
    if a == "" {
      assert s[1..] == b;
    } else {
      assert s[1..] == a[1..] + [sp] + b;
      FieldsAround(a[1..], sp, b);
      FieldsAreWords(a[1..]);
      if |a| == 1 {
        assert a[1..] == "";
      }
    }
  }

  lemma {:induction false} FieldsOfWord(w: string)
    requires Word(w)
    ensures Fields(w) == [w]
  {
    assert w[0] in w;
    if |w| == 1 {
      assert w == [w[0]] && Fields(w[1..]) == [];
    } else {
      assert w[1] in w && forall c | c in w[1..] :: c in w;
      FieldsOfWord(w[1..]);
      assert [w[0]] + w[1..] == w && [w[1..]][1..] == [];
    }
  }

  lemma {:induction false} FieldsOfJoin(ws: seq<string>)
    requires forall w | w in ws :: Word(w)
    ensures Fields(Join(ws, " ")) == ws
  {
    if |ws| == 1 {
      FieldsOfWord(ws[0]);
      assert ws == [ws[0]];
    } else if ws != [] {
      FieldsOfJoin(ws[1..]);
      FieldsOfWord(ws[0]);
      FieldsAround(ws[0], ' ', Join(ws[1..], " "));
      assert ws == [ws[0]] + ws[1..];
    }
  }

  lemma TidiedIsTidy(line: string)
    ensures Fields(Tidied(line)) == Fields(line) && Tidied(Tidied(line)) == Tidied(line)
  {
    FieldsAreWords(line);
    FieldsOfJoin(Fields(line));
  }

  lemma {:induction false} JoinChars(ws: seq<string>)
    requires forall w | w in ws :: Word(w)
    ensures forall c | c in Join(ws, " ") :: c != '\n'
  {
    if ws != [] {
      assert ws[0] in ws && forall w | w in ws[1..] :: w in ws;
      JoinChars(ws[1..]);
    }
  }

  lemma TidiedHasNoBreak(line: string)
    ensures '\n' !in Tidied(line)
  {
    FieldsAreWords(line);
    JoinChars(Fields(line));
  }

  // ---- Lines, joined and split again ----

  lemma {:induction false} SplitJoin(lines: seq<string>)
    requires lines != [] && forall l | l in lines :: '\n' !in l
    ensures Split(Join(lines, "\n")) == lines
  {
    if |lines| == 1 {
      SplitOne(lines[0]);
      assert lines == [lines[0]];
    } else {
      assert forall l | l in lines[1..] :: l in lines;
      SplitJoin(lines[1..]);
      SplitAt(lines[0], Join(lines[1..], "\n"));
      assert lines == [lines[0]] + lines[1..];
    }
  }

  lemma {:induction false} SplitOne(line: string)
    requires '\n' !in line
    ensures Split(line) == [line]
  {
    if line != "" {
      SplitOne(line[1..]);
      assert [line[0]] + line[1..] == line;
    }
  }

  lemma {:induction false} SplitAt(line: string, rest: string)
    requires '\n' !in line
    ensures Split(line + "\n" + rest) == [line] + Split(rest)
  {
    var s := line + "\n" + rest;
    if line == "" {
      assert s[1..] == rest;
    } else {
      assert s[1..] == line[1..] + "\n" + rest;
      SplitAt(line[1..], rest);
      assert [line[0]] + line[1..] == line;
    }
  }

  lemma {:induction false} JoinSplit(s: string)
    ensures Join(Split(s), "\n") == s
  {
    if s != "" {
      JoinSplit(s[1..]);
      var rest := Split(s[1..]);
      assert s == [s[0]] + s[1..];
      if s[0] == '\n' {
        assert Split(s)[1..] == rest;
      } else {
        assert Split(s)[1..] == rest[1..];
        if |rest| > 1 {
          assert [s[0]] + (rest[0] + "\n" + Join(rest[1..], "\n")) == ([s[0]] + rest[0]) + "\n" + Join(rest[1..], "\n");
        }
      }
    }
  }

  function Words(lines: seq<string>): seq<string> {
    if lines == [] then [] else Fields(lines[0]) + Words(lines[1..])
  }

  lemma {:induction false} FieldsOfLines(lines: seq<string>)
    ensures Fields(Join(lines, "\n")) == Words(lines)
  {
    if |lines| == 1 {
      assert Words(lines[1..]) == [];
      assert Fields(lines[0]) + [] == Fields(lines[0]);
    } else if lines != [] {
      FieldsOfLines(lines[1..]);
      FieldsAround(lines[0], '\n', Join(lines[1..], "\n"));
    }
  }

  function AllTidied(lines: seq<string>): seq<string> {
    if lines == [] then [] else [Tidied(lines[0])] + AllTidied(lines[1..])
  }

  lemma {:induction false} TidyingKeepsWords(lines: seq<string>)
    ensures Words(AllTidied(lines)) == Words(lines)
    ensures |AllTidied(lines)| == |lines|
    ensures forall l | l in AllTidied(lines) :: Tidied(l) == l && '\n' !in l
  {
    if lines != [] {
      TidyingKeepsWords(lines[1..]);
      TidiedIsTidy(lines[0]);
      TidiedHasNoBreak(lines[0]);
      var rest := AllTidied(lines[1..]);
      assert AllTidied(lines)[1..] == rest;
    }
  }

  lemma {:induction false} TidyStays(lines: seq<string>)
    requires forall l | l in lines :: Tidied(l) == l
    ensures AllTidied(lines) == lines
  {
    if lines != [] {
      assert lines[0] in lines && forall l | l in lines[1..] :: l in lines;
      TidyStays(lines[1..]);
      assert lines == [lines[0]] + lines[1..];
    }
  }

  /** Every line single-spaced and trimmed. */
  predicate Clean(s: string) {
    forall l | l in Split(s) :: Tidied(l) == l
  }

  function Normalized(s: string): string {
    Join(AllTidied(Split(s)), "\n")
  }

  lemma NormalizedIsClean(s: string)
    ensures Clean(Normalized(s)) && Fields(Normalized(s)) == Fields(s)
    ensures Clean(s) ==> Normalized(s) == s
  {
    var lines := Split(s);
    TidyingKeepsWords(lines);
    SplitJoin(AllTidied(lines));
    FieldsOfLines(AllTidied(lines));
    FieldsOfLines(lines);
    JoinSplit(s);
    if Clean(s) {
      TidyStays(lines);
    }
  }

  // ---- Squeezing ----

  /** Three breaks in a row. */
  predicate BreaksAt(s: string, i: int) {
    0 <= i <= |s| - 3 && s[i] == '\n' && s[i + 1] == '\n' && s[i + 2] == '\n'
  }

  predicate Contains(s: string) {
    exists i | 0 <= i < |s| :: BreaksAt(s, i)
  }

  /** One pass of replacing three breaks by two, left to right. */
  function Replaced(s: string): string {
    if BreaksAt(s, 0) then "\n\n" + Replaced(s[3..])
    else if s == "" then ""
    else [s[0]] + Replaced(s[1..])
  }

  lemma {:induction false} ReplacedShrinks(s: string)
    ensures |Replaced(s)| <= |s|
    ensures Contains(s) ==> |Replaced(s)| < |s|
  {
    if BreaksAt(s, 0) {
      ReplacedShrinks(s[3..]);
    } else if s != "" {
      ReplacedShrinks(s[1..]);
      if Contains(s) {
        var i :| 0 <= i < |s| && BreaksAt(s, i);
        assert i > 0 && BreaksAt(s[1..], i - 1);
      }
    }
  }

  lemma {:induction false} ReplacedKeepsWords(s: string)
    ensures Fields(Replaced(s)) == Fields(s)
    ensures s != "" ==> Replaced(s) != "" && Replaced(s)[0] == s[0]
  {
    if BreaksAt(s, 0) {
      ReplacedKeepsWords(s[3..]);
      assert s[1..][1..] == s[2..] && s[2..][1..] == s[3..];
      assert Fields(s[2..]) == Fields(s[3..]) && Fields(s[1..]) == Fields(s[2..]);
      var t := "\n\n" + Replaced(s[3..]);
      assert t[1..] == "\n" + Replaced(s[3..]) && t[1..][1..] == Replaced(s[3..]);
    } else if s != "" {
      ReplacedKeepsWords(s[1..]);
      var t := [s[0]] + Replaced(s[1..]);
      assert t[1..] == Replaced(s[1..]);
    }
  }

  /** Only blank lines are dropped: the first line stays, the others come from the others. */
  lemma {:induction false} ReplacedLines(s: string)
    ensures Split(Replaced(s))[0] == Split(s)[0]
    ensures forall l | l in Split(Replaced(s))[1..] :: l in Split(s)[1..]
  {
    if BreaksAt(s, 0) {
      ReplacedLines(s[3..]);
      SplitBreaks(s, Replaced(s[3..]));
      var before, after := Split(s[3..]), Split(Replaced(s[3..]));
      assert forall l | l in after :: l == after[0] || l in after[1..];
      assert forall l | l in before[1..] :: l in before;
    } else if s != "" {
      ReplacedLines(s[1..]);
      var t := [s[0]] + Replaced(s[1..]);
      assert t[1..] == Replaced(s[1..]);
      var before, after := Split(s[1..]), Split(Replaced(s[1..]));
      if s[0] == '\n' {
        assert Split(s)[1..] == before && Split(t)[1..] == after;
        assert forall l | l in after :: l == after[0] || l in after[1..];
      } else {
        assert Split(s)[1..] == before[1..] && Split(t)[1..] == after[1..];
      }
    }
  }

  lemma SplitBreaks(s: string, two: string)
    requires BreaksAt(s, 0)
    ensures Split(s) == ["", "", ""] + Split(s[3..])
    ensures Split("\n\n" + two) == ["", ""] + Split(two)
  {
    assert s[1..][1..] == s[2..] && s[2..][1..] == s[3..];
    assert Split(s[2..]) == [""] + Split(s[3..]) && Split(s[1..]) == [""] + Split(s[2..]) && Split(s) == [""] + Split(s[1..]);
    assert ("\n\n" + two)[1..] == "\n" + two && ("\n" + two)[1..] == two;
    assert Split("\n" + two) == [""] + Split(two);
  }

  lemma ReplacedStaysClean(s: string)
    requires Clean(s)
    ensures Clean(Replaced(s))
  {
    ReplacedLines(s);
    var after := Split(Replaced(s));
    assert forall l | l in after :: l == after[0] || l in after[1..];
    assert forall l | l in Split(s)[1..] :: l in Split(s);
    assert Split(s)[0] in Split(s);
  }

  // ---- Trimming ----

  /** TrimSpace: first the front, then the back. */
  function TrimFront(s: string): string {
    if s != "" && IsSpace(s[0]) then TrimFront(s[1..]) else s
  }

  function TrimBack(s: string): string {
    if s != "" && IsSpace(s[|s| - 1]) then TrimBack(s[..|s| - 1]) else s
  }

  predicate Trimmed(s: string) {
    s != "" ==> !IsSpace(s[0]) && !IsSpace(s[|s| - 1])
  }

  /** A tidy line neither begins nor ends with a space. */
  lemma TidyEnds(line: string)
    requires Tidied(line) == line && line != ""
    ensures !IsSpace(line[0]) && !IsSpace(line[|line| - 1])
  {
    FieldsAreWords(line);
    JoinEnds(Fields(line));
  }

  lemma {:induction false} JoinEnds(ws: seq<string>)
    requires forall w | w in ws :: Word(w)
    ensures var j := Join(ws, " "); j != "" ==> !IsSpace(j[0]) && !IsSpace(j[|j| - 1])
    ensures ws != [] ==> Join(ws, " ") != ""
  {
    if ws != [] {
      assert ws[0] in ws && ws[0][0] in ws[0] && ws[0][|ws[0]| - 1] in ws[0];
      assert forall w | w in ws[1..] :: w in ws;
      JoinEnds(ws[1..]);
    }
  }

  /** In clean text a leading space can only be a break, and dropping it drops a blank line. */
  lemma DropFront(s: string)
    requires Clean(s) && s != "" && IsSpace(s[0])
    ensures Clean(s[1..]) && Fields(s[1..]) == Fields(s)
  {
    var lines := Split(s);
    assert lines[0] in lines;
    if s[0] != '\n' {
      assert lines[0][0] == s[0];
      TidyEnds(lines[0]);
    }
    assert s[0] == '\n' && lines[1..] == Split(s[1..]);
    assert forall l | l in lines[1..] :: l in lines;
  }

  lemma {:induction false} SplitBack(s: string)
    ensures Split(s + "\n") == Split(s) + [""]
  {
    if s == "" {
      assert (s + "\n")[1..] == "";
    } else {
      assert (s + "\n")[1..] == s[1..] + "\n";
      SplitBack(s[1..]);
    }
  }

  lemma {:induction false} LastChar(s: string)
    requires s != "" && s[|s| - 1] != '\n'
    ensures var last := Split(s)[|Split(s)| - 1]; last != "" && last[|last| - 1] == s[|s| - 1]
  {
    if |s| > 1 {
      LastChar(s[1..]);
    } else {
      assert s[1..] == "";
    }
  }

  lemma DropBack(s: string)
    requires Clean(s) && s != "" && IsSpace(s[|s| - 1])
    ensures Clean(s[..|s| - 1]) && Fields(s[..|s| - 1]) == Fields(s)
  {
    BackIsBreak(s);
    var front := s[..|s| - 1];
    assert s == front + "\n" && front + ['\n'] + "" == s;
    SplitBack(front);
    FieldsAround(front, '\n', "");
    hide Split, Fields, IsSpace, Tidied;
    forall l | l in Split(front) ensures Tidied(l) == l {
      assert l in Split(front) + [""];
    }
    assert Fields("") == [] by { EmptyFields(); }
    assert Fields(front) + [] == Fields(front);
  }

  lemma EmptyFields()
    ensures Fields("") == []
  {
  }

  lemma BackIsBreak(s: string)
    requires Clean(s) && s != "" && IsSpace(s[|s| - 1])
    ensures s[|s| - 1] == '\n'
  {
    var lines := Split(s);
    assert lines[|lines| - 1] in lines;
    if s[|s| - 1] != '\n' {
      LastChar(s);
      TidyEnds(lines[|lines| - 1]);
    }
  }

  lemma PartContains(s: string, a: nat, b: nat)
    requires a <= b <= |s| && Contains(s[a..b])
    ensures Contains(s)
  {
    var i :| 0 <= i < b - a && BreaksAt(s[a..b], i);
    assert BreaksAt(s, a + i);
  }

  /** What trimming leaves of clean, squeezed text. */
  lemma {:induction false} TrimmingKeeps(s: string)
    requires Clean(s) && !Contains(s)
    ensures var t := TrimBack(TrimFront(s));
            Clean(t) && !Contains(t) && Trimmed(t) && Fields(t) == Fields(s)
    decreases |s|
  {
    if s != "" && IsSpace(s[0]) {
      DropFront(s);
      if Contains(s[1..]) {
        assert s[1..] == s[1..|s|];
        PartContains(s, 1, |s|);
      }
      TrimmingKeeps(s[1..]);
    } else if s != "" && IsSpace(s[|s| - 1]) {
      DropBack(s);
      assert s[..|s| - 1] == s[0..|s| - 1];
      if Contains(s[..|s| - 1]) {
        PartContains(s, 0, |s| - 1);
      }
      var t := s[..|s| - 1];
      assert t != "" ==> t[0] == s[0];
      TrimmingKeeps(t);
      assert TrimFront(t) == t && TrimFront(s) == s;
    }
  }

  // ---- The whole ----

  function Squeezed(s: string): string
    decreases |s|
  {
    ReplacedShrinks(s);
    if Contains(s) then Squeezed(Replaced(s)) else s
  }

  lemma {:induction false} SqueezingKeeps(s: string)
    requires Clean(s)
    ensures Clean(Squeezed(s)) && !Contains(Squeezed(s)) && Fields(Squeezed(s)) == Fields(s)
    decreases |s|
  {
    if Contains(s) {
      ReplacedShrinks(s);
      ReplacedStaysClean(s);
      ReplacedKeepsWords(s);
      SqueezingKeeps(Replaced(s));
    }
  }

  function Collapsed(s: string): string {
    TrimBack(TrimFront(Squeezed(Normalized(s))))
  }

  method CollapseWhitespace(input: string) returns (s: string)
    ensures s == Collapsed(input)
  {
    var lines := Split(input);
    var tidy: seq<string> := [];
    for i := 0 to |lines|
      invariant |tidy| == i && tidy + AllTidied(lines[i..]) == AllTidied(lines)
    {
      assert lines[i..][1..] == lines[i + 1..];
      tidy := tidy + [Join(Fields(lines[i]), " ")];
    }
    assert lines[|lines|..] == [] && tidy + [] == tidy;
    s := Join(tidy, "\n");
    ghost var start := s;
    assert start == Normalized(input);
    while Contains(s)
      invariant Squeezed(s) == Squeezed(start)
      decreases |s|
    {
      ReplacedShrinks(s);
      s := Replaced(s);
    }
    s := TrimBack(TrimFront(s));
  }

  /** What comes out is made of the same words in the same order; every line of it is trimmed
      and single-spaced; it has no run of three breaks and no space at either end. */
  lemma WhatComesOut(s: string)
    ensures Fields(Collapsed(s)) == Fields(s)
    ensures Clean(Collapsed(s)) && !Contains(Collapsed(s)) && Trimmed(Collapsed(s))
  {
    NormalizedIsClean(s);
    SqueezingKeeps(Normalized(s));
    TrimmingKeeps(Squeezed(Normalized(s)));
  }

  /** And collapsing it again changes nothing. */
  lemma CollapsingIsIdempotent(s: string)
    ensures Collapsed(Collapsed(s)) == Collapsed(s)
  {
    WhatComesOut(s);
    NormalizedIsClean(Collapsed(s));
  }
}
