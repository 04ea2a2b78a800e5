/**
  Python's `textwrap.dedent`, in its regular-expression form: lines made only
  of spaces and tabs are emptied, then the longest run of leading spaces and
  tabs shared by every line that has other text (the margin) is removed from
  the start of each line.  Lines are the pieces between `\n` characters, as
  for the `^` and `$` anchors of a multi-line regular expression.
 */
module Dedent {
  import opened Wrappers
  import opened Text

  /** The characters `textwrap` counts as indentation. */
  predicate IsMarginChar(c: char)
  {
    c == ' ' || c == '\t'
  }

  /** The line matches `^[ \t]+$`. */
  predicate WhitespaceOnly(line: string)
  {
    |line| > 0 && forall i :: 0 <= i < |line| ==> IsMarginChar(line[i])
  }

  /** The leading run of spaces and tabs of a line. */
  function Indent(line: string): (r: string)
    ensures IsPrefix(r, line)
    ensures forall i :: 0 <= i < |r| ==> IsMarginChar(r[i])
    ensures |r| < |line| ==> !IsMarginChar(line[|r|])
  {
    if |line| > 0 && IsMarginChar(line[0]) then [line[0]] + Indent(line[1..]) else ""
  }

  /** The line matches `^[ \t]*[^ \t\n]`: it holds a character besides indentation. */
  predicate HasText(line: string)
  {
    |Indent(line)| < |line|
  }

  lemma NoTextMeansBlank(line: string)
    requires !HasText(line)
    ensures line == "" || WhitespaceOnly(line)
  {
    assert Indent(line) == line;
  }

  lemma {:induction false} IndentOfIndented(p: string, s: string)
    requires forall i :: 0 <= i < |p| ==> IsMarginChar(p[i])
    ensures Indent(p + s) == p + Indent(s)
  {
    if |p| > 0 {
      var ps := p + s;
      assert ps[0] == p[0];
      assert ps[1..] == p[1..] + s;
      assert Indent(ps) == [p[0]] + Indent(ps[1..]);
      IndentOfIndented(p[1..], s);
      assert [p[0]] + (p[1..] + Indent(s)) == p + Indent(s);
    } else {
      assert p + s == s;
    }
  }

  /** The longest common prefix of two strings. */
  function CommonPrefix(a: string, b: string): (r: string)
    ensures IsPrefix(r, a) && IsPrefix(r, b)
  {
    if |a| > 0 && |b| > 0 && a[0] == b[0] then [a[0]] + CommonPrefix(a[1..], b[1..]) else ""
  }

  lemma {:induction false} CommonPrefixGreatest(p: string, a: string, b: string)
    requires IsPrefix(p, a) && IsPrefix(p, b)
    ensures IsPrefix(p, CommonPrefix(a, b))
  {
    if |p| > 0 {
      assert a[0] == p[0] == b[0];
      assert IsPrefix(p[1..], a[1..]) && IsPrefix(p[1..], b[1..]) by {
        assert a[1..][..|p| - 1] == a[..|p|][1..];
        assert b[1..][..|p| - 1] == b[..|p|][1..];
      }
      CommonPrefixGreatest(p[1..], a[1..], b[1..]);
    }
  }

  lemma PrefixTransitive(p: string, q: string, s: string)
    requires IsPrefix(p, q) && IsPrefix(q, s)
    ensures IsPrefix(p, s)
  {
    assert s[..|p|] == s[..|q|][..|p|];
  }

  /**
    The margin: folding the indents of the lines that have text, in order, with
    `CommonPrefix` (each branch of `textwrap`'s loop keeps the common prefix of
    the margin so far and the new indent).  `None` when no line has text.
   */
  function Margin(lines: seq<string>): (r: Option<string>)
    ensures r.None? <==> forall i :: 0 <= i < |lines| ==> !HasText(lines[i])
  {
    if |lines| == 0 then None
    else
      var m := Margin(lines[..|lines| - 1]);
      var line := lines[|lines| - 1];
      if !HasText(line) then m
      else if m.None? then Some(Indent(line))
      else Some(CommonPrefix(m.value, Indent(line)))
  }

  /** The margin as the string removed, empty when there is none. */
  function MarginText(lines: seq<string>): string
  {
    match Margin(lines)
    case None => ""
    case Some(m) => m
  }

  /** The margin is a prefix of the indent of every line that has text. */
  lemma {:induction false} MarginIsCommon(lines: seq<string>, i: int)
    requires 0 <= i < |lines| && HasText(lines[i])
    ensures Margin(lines).Some?
    ensures IsPrefix(Margin(lines).value, Indent(lines[i]))
  {
    var n := |lines| - 1;
    var init := lines[..n];
    if i < n {
      assert init[i] == lines[i];
      MarginIsCommon(init, i);
      if HasText(lines[n]) {
        PrefixTransitive(CommonPrefix(Margin(init).value, Indent(lines[n])), Margin(init).value, Indent(lines[i]));
      }
    } else if Margin(init).Some? {
      assert Margin(lines).value == CommonPrefix(Margin(init).value, Indent(lines[n]));
    }
  }

  /** Every prefix shared by the indents of all lines with text is a prefix of the margin. */
  lemma {:induction false} MarginIsGreatest(lines: seq<string>, p: string)
    requires Margin(lines).Some?
    requires forall i :: 0 <= i < |lines| && HasText(lines[i]) ==> IsPrefix(p, Indent(lines[i]))
    ensures IsPrefix(p, Margin(lines).value)
  {
    var n := |lines| - 1;
    var init := lines[..n];
    if !HasText(lines[n]) {
      assert forall i :: 0 <= i < |init| && HasText(init[i]) ==> IsPrefix(p, Indent(init[i])) by {
        forall i | 0 <= i < |init| && HasText(init[i]) ensures IsPrefix(p, Indent(init[i])) {
          assert init[i] == lines[i];
        }
      }
      MarginIsGreatest(init, p);
    } else if Margin(init).Some? {
      assert forall i :: 0 <= i < |init| && HasText(init[i]) ==> IsPrefix(p, Indent(init[i])) by {
        forall i | 0 <= i < |init| && HasText(init[i]) ensures IsPrefix(p, Indent(init[i])) {
          assert init[i] == lines[i];
        }
      }
      MarginIsGreatest(init, p);
      CommonPrefixGreatest(p, Margin(init).value, Indent(lines[n]));
    }
  }

  /** `_whitespace_only_re.sub('', text)` on one line. */
  function BlankLine(line: string): string
  {
    if WhitespaceOnly(line) then "" else line
  }

  function BlankLines(lines: seq<string>): (r: seq<string>)
    ensures |r| == |lines|
    ensures forall i :: 0 <= i < |lines| ==> r[i] == BlankLine(lines[i])
  {
    seq(|lines|, i requires 0 <= i < |lines| => BlankLine(lines[i]))
  }

  /** `re.sub('(?m)^' + margin, '', text)` on one line, skipped when the margin is empty. */
  function RemoveMargin(margin: Option<string>, line: string): string
  {
    if margin.Some? && margin.value != "" && IsPrefix(margin.value, line) then line[|margin.value|..] else line
  }

  function DedentLines(lines: seq<string>): (r: seq<string>)
    ensures |r| == |lines|
  {
    var blanked := BlankLines(lines);
    var margin := Margin(blanked);
    seq(|blanked|, i requires 0 <= i < |blanked| => RemoveMargin(margin, blanked[i]))
  }

  /** `textwrap.dedent(text)`. */
  function Dedent(text: string): string
  {
    Join("\n", DedentLines(Split(text, '\n')))
  }

  lemma BlankLineKeepsText(line: string)
    ensures HasText(BlankLine(line)) == HasText(line)
    ensures HasText(line) ==> BlankLine(line) == line
  {
    if WhitespaceOnly(line) {
      assert Indent(line)[..] == line[..|Indent(line)|];
    }
  }

  /** Emptying blank lines does not change the margin. */
  lemma {:induction false} MarginOfBlanked(lines: seq<string>)
    ensures Margin(BlankLines(lines)) == Margin(lines)
  {
    if |lines| > 0 {
      var n := |lines| - 1;
      assert BlankLines(lines)[..n] == BlankLines(lines[..n]);
      MarginOfBlanked(lines[..n]);
      BlankLineKeepsText(lines[n]);
    }
  }

  /**
    What dedenting does to each line: a line with text loses exactly the
    margin, and a line of spaces and tabs only becomes empty.
   */
  lemma DedentLineAt(lines: seq<string>, i: int)
    requires 0 <= i < |lines|
    ensures HasText(lines[i]) ==>
      IsPrefix(MarginText(lines), Indent(lines[i])) && DedentLines(lines)[i] == lines[i][|MarginText(lines)|..]
    ensures !HasText(lines[i]) ==> DedentLines(lines)[i] == ""
  {
    MarginOfBlanked(lines);
    BlankLineKeepsText(lines[i]);
    if HasText(lines[i]) {
      MarginIsCommon(lines, i);
      PrefixTransitive(Margin(lines).value, Indent(lines[i]), lines[i]);
    } else {
      NoTextMeansBlank(lines[i]);
    }
  }

  /** One line's fate under a given margin (`DedentLineAt` shows it is exact). */
  function DedentLine(margin: string, line: string): string
  {
    if !HasText(line) then "" else if IsPrefix(margin, line) then line[|margin|..] else line
  }

  function DedentWith(margin: string, lines: seq<string>): (r: seq<string>)
    ensures |r| == |lines|
    ensures forall i :: 0 <= i < |lines| ==> r[i] == DedentLine(margin, lines[i])
  {
    seq(|lines|, i requires 0 <= i < |lines| => DedentLine(margin, lines[i]))
  }

  lemma DedentLinesWith(lines: seq<string>)
    ensures DedentLines(lines) == DedentWith(MarginText(lines), lines)
  {
    forall i | 0 <= i < |lines|
      ensures DedentLines(lines)[i] == DedentLine(MarginText(lines), lines[i])
    {
      DedentLineAt(lines, i);
      if HasText(lines[i]) {
        PrefixTransitive(MarginText(lines), Indent(lines[i]), lines[i]);
      }
    }
  }

  function DedentAll(margin: string, xss: seq<seq<string>>): (r: seq<seq<string>>)
    ensures |r| == |xss|
    ensures forall i :: 0 <= i < |xss| ==> r[i] == DedentWith(margin, xss[i])
  {
    seq(|xss|, i requires 0 <= i < |xss| => DedentWith(margin, xss[i]))
  }

  lemma {:induction false} DedentWithFlatten(margin: string, xss: seq<seq<string>>)
    ensures DedentWith(margin, Flatten(xss)) == Flatten(DedentAll(margin, xss))
  {
    if |xss| > 0 {
      DedentWithFlatten(margin, xss[1..]);
      assert DedentAll(margin, xss)[1..] == DedentAll(margin, xss[1..]);
      assert DedentWith(margin, xss[0] + Flatten(xss[1..])) == DedentWith(margin, xss[0]) + DedentWith(margin, Flatten(xss[1..]));
    }
  }

  /** A piece of a larger text, dedented with the margin of the whole text. */
  function DedentPart(margin: string, part: string): string
  {
    Join("\n", DedentWith(margin, Split(part, '\n')))
  }

  function DedentParts(margin: string, parts: seq<string>): (r: seq<string>)
    ensures |r| == |parts|
    ensures forall i :: 0 <= i < |parts| ==> r[i] == DedentPart(margin, parts[i])
  {
    seq(|parts|, i requires 0 <= i < |parts| => DedentPart(margin, parts[i]))
  }

  lemma DedentedLinesOfJoin(parts: seq<string>, m: string)
    requires |parts| >= 1
    requires m == MarginText(Split(Join("\n", parts), '\n'))
    ensures DedentLines(Split(Join("\n", parts), '\n')) == Flatten(DedentAll(m, SplitAll(parts, '\n')))
  {
    SplitOfJoin(parts, '\n');
    DedentLinesWith(Split(Join("\n", parts), '\n'));
    DedentWithFlatten(m, SplitAll(parts, '\n'));
  }

  lemma JoinDedentedParts(parts: seq<string>, m: string)
    ensures (forall i :: 0 <= i < |parts| ==> DedentAll(m, SplitAll(parts, '\n'))[i] != [])
    ensures JoinAll("\n", DedentAll(m, SplitAll(parts, '\n'))) == DedentParts(m, parts)
  {
  }

  /** Dedenting a text glued from parts dedents each part with the shared margin. */
  lemma DedentJoined(parts: seq<string>)
    requires |parts| >= 1
    ensures Dedent(Join("\n", parts)) == Join("\n", DedentParts(MarginText(Split(Join("\n", parts), '\n')), parts))
  {
    var m := MarginText(Split(Join("\n", parts), '\n'));
    var dxss := DedentAll(m, SplitAll(parts, '\n'));
    DedentedLinesOfJoin(parts, m);
    JoinDedentedParts(parts, m);
    JoinFlatten("\n", dxss);
  }

  lemma MarginIsCommonMember(lines: seq<string>, line: string)
    requires line in lines && HasText(line)
    ensures IsPrefix(MarginText(lines), Indent(line))
  {
    var i :| 0 <= i < |lines| && lines[i] == line;
    MarginIsCommon(lines, i);
  }

  lemma MarginIsGreatestMember(lines: seq<string>, p: string)
    requires exists line :: line in lines && HasText(line)
    requires forall line :: line in lines && HasText(line) ==> IsPrefix(p, Indent(line))
    ensures IsPrefix(p, MarginText(lines))
  {
    var line :| line in lines && HasText(line);
    var i :| 0 <= i < |lines| && lines[i] == line;
    MarginIsCommon(lines, i);
    MarginIsGreatest(lines, p);
  }

  /** A dedented line is a line of the input with at most its margin taken off, or empty: never blank. */
  lemma DedentedLineNotBlank(lines: seq<string>, i: int)
    requires 0 <= i < |lines| && '\n' !in lines[i]
    ensures '\n' !in DedentLines(lines)[i] && !WhitespaceOnly(DedentLines(lines)[i])
  {
    DedentLineAt(lines, i);
    if HasText(lines[i]) {
      TailAfterIndent(lines[i], |MarginText(lines)|);
    }
  }

  /** Cutting at most its indentation off a line with text leaves a line with text. */
  lemma TailAfterIndent(line: string, m: int)
    requires 0 <= m <= |Indent(line)| < |line| && '\n' !in line
    ensures '\n' !in line[m..] && !WhitespaceOnly(line[m..])
  {
    var n := |Indent(line)|;
    assert line[m..][n - m] == line[n];
    assert forall c :: c in line[m..] ==> c in line;
  }

  /** No line of `dedent`'s result is made only of spaces and tabs, and none holds a newline. */
  lemma DedentedLinesNotBlank(text: string)
    ensures forall k :: 0 <= k < |DedentLines(Split(text, '\n'))| ==>
      '\n' !in DedentLines(Split(text, '\n'))[k] && !WhitespaceOnly(DedentLines(Split(text, '\n'))[k])
  {
    var lines := Split(text, '\n');
    forall k | 0 <= k < |DedentLines(lines)|
      ensures '\n' !in DedentLines(lines)[k] && !WhitespaceOnly(DedentLines(lines)[k])
    {
      DedentedLineNotBlank(lines, k);
    }
  }

  /** A line standing between two newlines in `dedent`'s result has text: `dedent` leaves no blank line. */
  /** A line made only of spaces and tabs holds no newline. */
  lemma WhitespaceOnlyIsOneLine(w: string)
    requires WhitespaceOnly(w)
    ensures '\n' !in w
  {
  }

  lemma DedentedLineBetweenNewlines(text: string, w: string, o: int)
    requires '\n' !in w && OccursAt("\n" + w + "\n", Dedent(text), o)
    ensures !WhitespaceOnly(w)
  {
    var lines := DedentLines(Split(text, '\n'));
    DedentedLinesNotBlank(text);
    BetweenNewlinesIsPart(lines, w, o);
  }
}
