/** Which line breaks survive the normalising of whitespace. */
module HtmlLines {
  import opened HtmlText

  function Capped(n: nat): nat {
    if n > 2 then 2 else n
  }

  // ---- The line of each word ----

  /** For each word of the lines, in order, the number of its line. */
  function Places(lines: seq<string>, first: nat): (ps: seq<nat>)
    ensures |ps| == |Words(lines)|
  {
    if lines == [] then [] else seq(|Fields(lines[0])|, i => first) + Places(lines[1..], first + 1)
  }

  function LineOf(s: string, k: nat): nat
    requires k < |Fields(s)|
  {
    WordsAreFields(s);
    Places(Split(s), 0)[k]
  }

  /** The words of the lines are the words of the text. */
  lemma WordsAreFields(s: string)
    ensures Words(Split(s)) == Fields(s)
  {
    JoinSplit(s);
    FieldsOfLines(Split(s));
  }

  // ---- From each word to the next ----

  /** For each word the breaks since the word before it, at most two; `gap` are those already
      passed when the lines begin. */
  function Steps(lines: seq<string>, gap: nat): seq<nat> {
    if lines == [] then []
    else
      var n := |Fields(lines[0])|;
      if n == 0 then Steps(lines[1..], Capped(gap + 1))
      else [gap] + seq(n - 1, i => 0) + Steps(lines[1..], 1)
  }

  /** The line of the word before, or of the last word before the lines. */
  function Prior(ps: seq<nat>, k: nat, last: int): int
    requires k < |ps|
  {
    if k == 0 then last else ps[k - 1]
  }

  /** The steps are the differences of the places, capped. */
  lemma {:induction false} StepsAreDifferences(lines: seq<string>, first: nat, last: int, k: nat)
    requires last <= first && k < |Words(lines)|
    ensures var ps, steps := Places(lines, first), Steps(lines, Capped(first - last));
            |steps| == |ps| && ps[k] >= first && ps[k] >= Prior(ps, k, last) && steps[k] == Capped(ps[k] - Prior(ps, k, last))
  {
    hide Fields;
    var n := |Fields(lines[0])|;
    var ps, rest := Places(lines, first), Places(lines[1..], first + 1);
    if n == 0 {
      assert ps == rest;
      StepsAreDifferences(lines[1..], first + 1, last, k);
    } else if k >= n {
      StepsAreDifferences(lines[1..], first + 1, first, k - n);
    } else if |rest| > 0 {
      StepsAreDifferences(lines[1..], first + 1, first, 0);
    } else {
      NoStepsWithoutWords(lines[1..], 1);
    }
  }

  lemma {:induction false} NoStepsWithoutWords(lines: seq<string>, gap: nat)
    requires Words(lines) == []
    ensures Steps(lines, gap) == []
  {
    if lines != [] {
      NoStepsWithoutWords(lines[1..], Capped(gap + 1));
    }
  }

  /** Only the first step depends on where the lines begin. */
  lemma {:induction false} OnlyTheFirstMoves(lines: seq<string>, a: nat, b: nat)
    ensures |Steps(lines, a)| == |Steps(lines, b)|
    ensures forall k | 0 < k < |Steps(lines, a)| :: Steps(lines, a)[k] == Steps(lines, b)[k]
  {
    if lines != [] {
      OnlyTheFirstMoves(lines[1..], Capped(a + 1), Capped(b + 1));
    }
  }

  // ---- What the passes keep ----

  lemma {:induction false} TidyingKeepsSteps(lines: seq<string>, gap: nat)
    ensures Steps(AllTidied(lines), gap) == Steps(lines, gap)
  {
    if lines != [] {
      TidiedIsTidy(lines[0]);
      TidyingKeepsSteps(lines[1..], Capped(gap + 1));
      TidyingKeepsSteps(lines[1..], 1);
      assert AllTidied(lines)[1..] == AllTidied(lines[1..]);
    }
  }

  lemma NormalizingKeepsSteps(s: string)
    ensures Steps(Split(Normalized(s)), 0) == Steps(Split(s), 0)
  {
    TidyingKeepsWords(Split(s));
    SplitJoin(AllTidied(Split(s)));
    TidyingKeepsSteps(Split(s), 0);
  }

  lemma BlankSteps(lines: seq<string>, gap: nat)
    ensures Steps([""] + lines, gap) == Steps(lines, Capped(gap + 1))
  {
    EmptyFields();
  }

  /** The words of one line more, in front of lines that step alike. */
  lemma SameFirstLine(a: seq<string>, b: seq<string>, line: string, more: string, gap: nat)
    requires Fields(more) == [] ==> Fields(line) == []
    requires forall g: nat :: Steps([line] + a, g) == Steps([line] + b, g)
    ensures Steps([more] + a, gap) == Steps([more] + b, gap)
  {
    assert ([line] + a)[1..] == a && ([line] + b)[1..] == b && ([more] + a)[1..] == a && ([more] + b)[1..] == b;
    var n := |Fields(line)|;
    if n == 0 {
      assert Steps([line] + a, gap) == Steps([line] + b, gap) && Steps([line] + a, 0) == Steps([line] + b, 0);
    } else {
      var front := [gap] + seq(n - 1, i => 0);
      assert Steps([line] + a, gap) == front + Steps(a, 1) && Steps([line] + b, gap) == front + Steps(b, 1);
      assert (front + Steps(a, 1))[n..] == Steps(a, 1) && (front + Steps(b, 1))[n..] == Steps(b, 1);
    }
  }

  /** A third break in a row separates nothing that two do not. */
  lemma {:induction false} ReplacingKeepsSteps(s: string, gap: nat)
    ensures Steps(Split(Replaced(s)), gap) == Steps(Split(s), gap)
    decreases |s|
  {
    if BreaksAt(s, 0) {
      ThreeForTwo(s, gap);
    } else if s != "" {
      var t := [s[0]] + Replaced(s[1..]);
      assert t[1..] == Replaced(s[1..]) && Replaced(s) == t;
      var a, b := Split(s[1..]), Split(Replaced(s[1..]));
      if s[0] == '\n' {
        ReplacingKeepsSteps(s[1..], Capped(gap + 1));
        BlankSteps(a, gap);
        BlankSteps(b, gap);
      } else {
        ReplacedLines(s[1..]);
        forall g: nat ensures Steps(a, g) == Steps(b, g) {
          ReplacingKeepsSteps(s[1..], g);
        }
        assert a == [a[0]] + a[1..] && b == [a[0]] + b[1..];
        MoreFields(s[0], a[0]);
        SameFirstLine(a[1..], b[1..], a[0], [s[0]] + a[0], gap);
      }
    }
  }

  lemma ThreeForTwo(s: string, gap: nat)
    requires BreaksAt(s, 0)
    ensures Steps(Split(Replaced(s)), gap) == Steps(Split(s), gap)
    decreases |s|, 0
  {
    var a, b := Split(s[3..]), Split(Replaced(s[3..]));
    SplitBreaks(s, Replaced(s[3..]));
    ReplacingKeepsSteps(s[3..], 2);
    assert ["", "", ""] + a == [""] + ([""] + ([""] + a)) && ["", ""] + b == [""] + ([""] + b);
    BlankSteps([""] + ([""] + a), gap);
    BlankSteps([""] + a, Capped(gap + 1));
    BlankSteps(a, Capped(Capped(gap + 1) + 1));
    BlankSteps([""] + b, gap);
    BlankSteps(b, Capped(gap + 1));
  }

  lemma MoreFields(c: char, line: string)
    ensures Fields([c] + line) == [] ==> Fields(line) == []
  {
    assert ([c] + line)[1..] == line;
  }

  lemma {:induction false} SqueezingKeepsSteps(s: string)
    ensures Steps(Split(Squeezed(s)), 0) == Steps(Split(s), 0)
    decreases |s|
  {
    if Contains(s) {
      ReplacedShrinks(s);
      ReplacingKeepsSteps(s, 0);
      SqueezingKeepsSteps(Replaced(s));
    }
  }

  /** The same steps but for the first. */
  predicate SameInside(a: seq<nat>, b: seq<nat>) {
    |a| == |b| && forall k | 0 < k < |a| :: a[k] == b[k]
  }

  lemma {:induction false} BlankAtTheEnd(lines: seq<string>, gap: nat)
    ensures Steps(lines + [""], gap) == Steps(lines, gap)
  {
    if lines == [] {
      BlankSteps([], gap);
      assert lines + [""] == [""] + [];
    } else {
      assert (lines + [""])[1..] == lines[1..] + [""];
      BlankAtTheEnd(lines[1..], Capped(gap + 1));
      BlankAtTheEnd(lines[1..], 1);
    }
  }

  lemma {:induction false} TrimmingKeepsSteps(s: string)
    requires Clean(s)
    ensures SameInside(Steps(Split(TrimBack(TrimFront(s))), 0), Steps(Split(s), 0))
    decreases |s|
  {
    if s != "" && IsSpace(s[0]) {
      FrontIsBreak(s);
      DropFront(s);
      TrimmingKeepsSteps(s[1..]);
      BlankSteps(Split(s[1..]), 0);
      OnlyTheFirstMoves(Split(s[1..]), 0, 1);
    } else if s != "" && IsSpace(s[|s| - 1]) {
      BackIsBreak(s);
      DropBack(s);
      var t := s[..|s| - 1];
      assert s == t + "\n";
      SplitBack(t);
      BlankAtTheEnd(Split(t), 0);
      TrimmingKeepsSteps(t);
      assert t != "" ==> t[0] == s[0];
      assert TrimFront(t) == t && TrimFront(s) == s;
    }
  }

  lemma FrontIsBreak(s: string)
    requires Clean(s) && s != "" && IsSpace(s[0])
    ensures s[0] == '\n'
  {
    if s[0] != '\n' {
      var line := Split(s)[0];
      assert line in Split(s) && line[0] == s[0];
      TidyEnds(line);
    }
  }

  // ---- The whole ----

  lemma CollapsingKeepsSteps(s: string)
    ensures SameInside(Steps(Split(Collapsed(s)), 0), Steps(Split(s), 0))
  {
    NormalizingKeepsSteps(s);
    NormalizedIsClean(s);
    SqueezingKeepsSteps(Normalized(s));
    SqueezingKeeps(Normalized(s));
    TrimmingKeepsSteps(Squeezed(Normalized(s)));
    hide Split, Steps, Normalized, Squeezed, TrimFront, TrimBack, Clean, Contains, Fields;
  }

  lemma LineOfIsAStep(s: string, k: nat)
    requires 0 < k < |Fields(s)|
    ensures LineOf(s, k) >= LineOf(s, k - 1)
    ensures k < |Steps(Split(s), 0)| && Steps(Split(s), 0)[k] == Capped(LineOf(s, k) - LineOf(s, k - 1))
  {
    WordsAreFields(s);
    StepsAreDifferences(Split(s), 0, 0, k);
    hide Split, Steps, Fields, Places;
  }

  // ---- Nothing wider than a blank line is left ----

  /** The lines between a word and the one before it hold no word. */
  lemma {:induction false} NoWordsBetween(lines: seq<string>, first: nat, last: int, k: nat)
    requires last < first && k < |Words(lines)|
    ensures var ps := Places(lines, first);
            && first <= ps[k] < first + |lines|
            && forall j | 0 <= j < |lines| && Prior(ps, k, last) < first + j < ps[k] :: Fields(lines[j]) == []
  {
    hide Fields;
    var n := |Fields(lines[0])|;
    var ps, rest := Places(lines, first), Places(lines[1..], first + 1);
    if n == 0 {
      assert ps == rest;
      NoWordsBetween(lines[1..], first + 1, last, k);
      forall j | 0 <= j < |lines| && Prior(ps, k, last) < first + j < ps[k] ensures Fields(lines[j]) == [] {
        assert j > 0 ==> lines[j] == lines[1..][j - 1];
      }
    } else if k >= n {
      NoWordsBetween(lines[1..], first + 1, first, k - n);
      if k > n {
        NoWordsBetween(lines[1..], first + 1, first, k - n - 1);
      }
      assert Prior(ps, k, last) == Prior(rest, k - n, first) >= first;
      forall j | 0 < j < |lines| && Prior(ps, k, last) < first + j < ps[k] ensures Fields(lines[j]) == [] {
        assert lines[j] == lines[1..][j - 1];
      }
    }
  }

  lemma {:induction false} TwoBlanksAreThreeBreaks(lines: seq<string>, i: nat)
    requires i + 3 < |lines| && lines[i + 1] == lines[i + 2] == ""
    ensures Contains(Join(lines, "\n"))
  {
    var s, rest := Join(lines, "\n"), Join(lines[1..], "\n");
    assert s == lines[0] + "\n" + rest;
    if i == 0 {
      assert rest == "" + "\n" + Join(lines[1..][1..], "\n");
      assert Join(lines[1..][1..], "\n") == "" + "\n" + Join(lines[1..][1..][1..], "\n");
      assert BreaksAt(s, |lines[0]|);
    } else {
      TwoBlanksAreThreeBreaks(lines[1..], i - 1);
      var from := |lines[0]| + 1;
      assert s[from..|s|] == rest;
      PartContains(s, from, |s|);
    }
  }

  lemma WordlessIsBlank(line: string)
    requires Tidied(line) == line && Fields(line) == []
    ensures line == ""
  {
  }

  lemma AtMostABlankLine(s: string, k: nat)
    requires Clean(s) && !Contains(s) && 0 < k < |Fields(s)|
    ensures LineOf(s, k) - LineOf(s, k - 1) <= 2
  {
    WordsAreFields(s);
    var lines, ps := Split(s), Places(Split(s), 0);
    NoWordsBetween(lines, 0, -1, k);
    NoWordsBetween(lines, 0, -1, k - 1);
    hide Places, Words, Split, IsSpace;
    if ps[k] > ps[k - 1] + 2 {
      var i := ps[k - 1];
      assert Fields(lines[i + 1]) == [] && Fields(lines[i + 2]) == [];
      assert lines[i + 1] in lines && lines[i + 2] in lines;
      WordlessIsBlank(lines[i + 1]);
      WordlessIsBlank(lines[i + 2]);
      TwoBlanksAreThreeBreaks(lines, i);
      JoinSplit(s);
    }
  }

  /** Two neighbouring words on one line stay on one line, on two lines they stay on two, and a
      blank line stays between them exactly where there was at least one. */
  lemma WhichBreaksSurvive(s: string, k: nat)
    requires 0 < k < |Fields(s)|
    ensures Fields(Collapsed(s)) == Fields(s)
    ensures LineOf(s, k) >= LineOf(s, k - 1)
    ensures LineOf(Collapsed(s), k) - LineOf(Collapsed(s), k - 1) == Capped(LineOf(s, k) - LineOf(s, k - 1))
  {
    hide Collapsed, Fields, Split, Steps, LineOf, Trimmed, Contains, Clean, IsSpace, Tidied;
    WhatComesOut(s);
    CollapsingKeepsSteps(s);
    LineOfIsAStep(s, k);
    LineOfIsAStep(Collapsed(s), k);
    AtMostABlankLine(Collapsed(s), k);
  }
}
