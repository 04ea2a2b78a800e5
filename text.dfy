/**
  The Python string operations the core relies on: `str.join`, `str.strip()`
  and `str(int)`; and splitting on one character, which models the lines
  `textwrap.dedent` works on and the parsers that invert the renderings.
 */
module Text {
  import opened Wrappers

  predicate IsPrefix(p: string, s: string)
  {
    |p| <= |s| && s[..|p|] == p
  }

  predicate IsSuffix(p: string, s: string)
  {
    |p| <= |s| && s[|s| - |p|..] == p
  }

  lemma SuffixTransitive(a: string, b: string, c: string)
    requires IsSuffix(a, b) && IsSuffix(b, c)
    ensures IsSuffix(a, c)
  {
    assert c[|c| - |a|..] == c[|c| - |b|..][|b| - |a|..];
  }

  lemma ConcatAssoc(a: string, b: string, c: string)
    ensures a + (b + c) == (a + b) + c
  {
  }

  /** `t` occurs in `s` starting at index `i`. */
  predicate OccursAt(t: string, s: string, i: int)
  {
    0 <= i && i + |t| <= |s| && s[i..i + |t|] == t
  }

  /** Python's `t in s` for strings. */
  predicate Contains(s: string, t: string)
  {
    exists i | 0 <= i <= |s| :: OccursAt(t, s, i)
  }

  lemma OccursInConcat(t: string, a: string, b: string, c: string)
    requires b == t
    ensures OccursAt(t, a + b + c, |a|)
  {
    assert (a + b + c)[|a|..|a| + |t|] == b;
  }

  lemma OccursAtEnd(p: string, t: string)
    ensures OccursAt(t, p + t, |p|)
  {
    assert (p + t)[|p|..|p| + |t|] == t;
  }

  lemma ContainsTail(p: string, t: string)
    ensures Contains(p + t, t)
  {
    OccursAtEnd(p, t);
  }

  lemma OccursAtShift(t: string, s: string, i: int, a: string, c: string)
    requires OccursAt(t, s, i)
    ensures OccursAt(t, a + s + c, |a| + i)
  {
    assert (a + s + c)[|a| + i..|a| + i + |t|] == s[i..i + |t|];
  }

  /** An occurrence past a prefix is an occurrence in the rest. */
  lemma OccursPastPrefix(t: string, p: string, s: string, i: int)
    requires OccursAt(t, p + s, i) && i >= |p|
    ensures OccursAt(t, s, i - |p|)
  {
    assert s[i - |p|..i - |p| + |t|] == (p + s)[i..i + |t|];
  }

  /** An occurrence inside an occurrence. */
  lemma OccursWithin(t: string, u: string, s: string, j: int, i: int)
    requires OccursAt(t, u, j) && OccursAt(u, s, i)
    ensures OccursAt(t, s, i + j)
  {
    forall k | 0 <= k < |t|
      ensures s[i + j + k] == t[k]
    {
      assert s[i + j + k] == s[i..i + |u|][j + k] == u[j..j + |t|][k];
    }
    assert s[i + j..i + j + |t|] == t;
  }

  /** Containment is transitive. */
  lemma ContainsTransitive(t: string, u: string, s: string)
    requires Contains(u, t) && Contains(s, u)
    ensures Contains(s, t)
  {
    var j :| 0 <= j <= |u| && OccursAt(t, u, j);
    var i :| 0 <= i <= |s| && OccursAt(u, s, i);
    OccursWithin(t, u, s, j, i);
  }

  // ---------------------------------------------------------------------
  // str.join
  // ---------------------------------------------------------------------

  /** `sep.join(parts)`: the parts in order, with `sep` between neighbours. */
  function Join(sep: string, parts: seq<string>): string
  {
    if |parts| == 0 then ""
    else if |parts| == 1 then parts[0]
    else parts[0] + sep + Join(sep, parts[1..])
  }

  lemma {:induction false} JoinConcat(sep: string, xs: seq<string>, ys: seq<string>)
    requires xs != [] && ys != []
    ensures Join(sep, xs + ys) == Join(sep, xs) + sep + Join(sep, ys)
  {
    if |xs| == 1 {
      assert xs + ys == [xs[0]] + ys;
    } else {
      assert (xs + ys)[1..] == xs[1..] + ys;
      JoinConcat(sep, xs[1..], ys);
    }
  }

  lemma JoinKeepsFirst(sep: string, parts: seq<string>)
    requires parts != []
    ensures IsPrefix(parts[0], Join(sep, parts))
  {
  }

  /** Where part `i` starts in `Join(sep, parts)`. */
  function PartOffset(sep: string, parts: seq<string>, i: nat): nat
    requires i <= |parts|
  {
    if i == 0 then 0 else |parts[0]| + |sep| + PartOffset(sep, parts[1..], i - 1)
  }

  /** Part `i` starts a separator past the end of part `i - 1`. */
  lemma {:induction false} PartOffsetStep(sep: string, parts: seq<string>, i: nat)
    requires 0 < i <= |parts|
    ensures PartOffset(sep, parts, i) == PartOffset(sep, parts, i - 1) + |parts[i - 1]| + |sep|
  {
    if i > 1 {
      PartOffsetStep(sep, parts[1..], i - 1);
    }
  }

  /**
    The join is the parts in order: part `i` occurs at its offset, the
    separator follows every part but the last, and the string ends after it.
   */
  lemma JoinPartAtHead(sep: string, parts: seq<string>)
    requires |parts| >= 1
    ensures OccursAt(parts[0], Join(sep, parts), 0)
    ensures 1 < |parts| ==> OccursAt(sep, Join(sep, parts), |parts[0]|)
    ensures 1 == |parts| ==> |Join(sep, parts)| == |parts[0]|
  {
    var s := Join(sep, parts);
    if |parts| == 1 {
      assert s[0..|parts[0]|] == s;
    } else {
      var first, rest := parts[0], Join(sep, parts[1..]);
      OccursInConcat(first, "", first, sep + rest);
      OccursInConcat(sep, first, sep, rest);
      assert "" + first + (sep + rest) == s;
    }
  }

  /** Every part but the first comes right after a whole separator. */
  lemma SeparatorBefore(sep: string, parts: seq<string>, i: nat)
    requires 0 < i < |parts| && sep != []
    ensures 0 < PartOffset(sep, parts, i) <= |Join(sep, parts)|
    ensures Join(sep, parts)[PartOffset(sep, parts, i) - 1] == sep[|sep| - 1]
  {
    JoinPartAt(sep, parts, i - 1);
    PartOffsetStep(sep, parts, i);
    var j, o := Join(sep, parts), PartOffset(sep, parts, i - 1) + |parts[i - 1]|;
    assert j[o + |sep| - 1] == j[o..o + |sep|][|sep| - 1];
  }

  lemma {:induction false} JoinPartAt(sep: string, parts: seq<string>, i: nat)
    requires i < |parts|
    ensures OccursAt(parts[i], Join(sep, parts), PartOffset(sep, parts, i))
    ensures i + 1 < |parts| ==> OccursAt(sep, Join(sep, parts), PartOffset(sep, parts, i) + |parts[i]|)
    ensures i + 1 == |parts| ==> |Join(sep, parts)| == PartOffset(sep, parts, i) + |parts[i]|
  {
    if i == 0 {
      JoinPartAtHead(sep, parts);
    } else {
      var s := Join(sep, parts);
      var first, rest := parts[0], Join(sep, parts[1..]);
      assert s == first + sep + rest + "";
      JoinPartAt(sep, parts[1..], i - 1);
      assert parts[1..][i - 1] == parts[i];
      var o := PartOffset(sep, parts[1..], i - 1);
      OccursAtShift(parts[i], rest, o, first + sep, "");
      if i + 1 < |parts| {
        OccursAtShift(sep, rest, o + |parts[i]|, first + sep, "");
      }
    }
  }

  lemma {:induction false} JoinKeepsLast(sep: string, parts: seq<string>)
    requires parts != []
    ensures IsSuffix(parts[|parts| - 1], Join(sep, parts))
  {
    if |parts| > 1 {
      JoinKeepsLast(sep, parts[1..]);
      var j := Join(sep, parts[1..]);
      assert Join(sep, parts) == parts[0] + sep + j;
      var last := parts[|parts| - 1];
      assert (parts[0] + sep + j)[|parts[0] + sep + j| - |last|..] == j[|j| - |last|..];
    }
  }

  // ---------------------------------------------------------------------
  // Splitting on one character: the lines of a text, and the inverse parsers
  // ---------------------------------------------------------------------

  /** The maximal pieces of `s` between occurrences of `d`; with `d == '\n'`, the lines of `s`. */
  function Split(s: string, d: char): (r: seq<string>)
    ensures |r| >= 1
    ensures forall i :: 0 <= i < |r| ==> d !in r[i]
  {
    if |s| == 0 then [""]
    else if s[0] == d then [""] + Split(s[1..], d)
    else
      var t := Split(s[1..], d);
      [[s[0]] + t[0]] + t[1..]
  }

  lemma {:induction false} SplitNoSeparator(s: string, d: char)
    requires d !in s
    ensures Split(s, d) == [s]
  {
    if |s| > 0 {
      assert d !in s[1..];
      SplitNoSeparator(s[1..], d);
      assert [s[0]] + s[1..] == s;
    }
  }

  /** Splitting distributes over a glued separator. */
  lemma {:induction false} SplitConcat(a: string, b: string, d: char)
    ensures Split(a + [d] + b, d) == Split(a, d) + Split(b, d)
  {
    if |a| == 0 {
      assert a + [d] + b == [d] + b;
      assert ([d] + b)[1..] == b;
    } else {
      assert (a + [d] + b)[1..] == a[1..] + [d] + b;
      SplitConcat(a[1..], b, d);
    }
  }

  /**
    A separator-free stretch of `s` that starts at the beginning of `s` or just
    after a separator, and ends at the end of `s` or just before one, is a piece.
   */
  lemma LineAt(s: string, o: int, h: string, d: char)
    requires OccursAt(h, s, o) && d !in h
    requires o == 0 || s[o - 1] == d
    requires o + |h| == |s| || s[o + |h|] == d
    ensures h in Split(s, d)
  {
    if o == 0 {
      LineAtHead(s, h, d);
    } else {
      var a, r := s[..o - 1], s[o..];
      assert s == a + [d] + r;
      LineAtHead(r, h, d);
      SplitConcat(a, r, d);
      var before, after := Split(a, d), Split(r, d);
      assert h in before + after;
    }
  }

  lemma LineAtHead(r: string, h: string, d: char)
    requires IsPrefix(h, r) && d !in h
    requires |h| == |r| || r[|h|] == d
    ensures h in Split(r, d)
  {
    SplitNoSeparator(h, d);
    if |h| == |r| {
      assert r == h;
    } else {
      var rest := r[|h| + 1..];
      assert r == h + [d] + rest;
      SplitConcat(h, rest, d);
      assert Split(r, d)[0] == h;
    }
  }

  /** Round trip one way: joining the pieces of `s` with `d` gives back `s`. */
  lemma {:induction false} JoinSplit(s: string, d: char)
    ensures Join([d], Split(s, d)) == s
  {
    if |s| > 0 {
      var t := Split(s[1..], d);
      JoinSplit(s[1..], d);
      if s[0] == d {
        JoinConcat([d], [""], t);
        assert [""] + t == Split(s, d);
        assert "" + [d] + Join([d], t) == s;
      } else {
        if |t| == 1 {
          assert Split(s, d) == [[s[0]] + t[0]];
          assert [s[0]] + s[1..] == s;
        } else {
          JoinConcat([d], [t[0]], t[1..]);
          JoinConcat([d], [[s[0]] + t[0]], t[1..]);
          assert [t[0]] + t[1..] == t;
          assert [[s[0]] + t[0]] + t[1..] == Split(s, d);
          assert [s[0]] + s[1..] == s;
        }
      }
    }
  }

  /** Round trip the other way: separator-free pieces are recovered by splitting. */
  lemma {:induction false} SplitJoin(parts: seq<string>, d: char)
    requires |parts| >= 1
    requires forall i :: 0 <= i < |parts| ==> d !in parts[i]
    ensures Split(Join([d], parts), d) == parts
  {
    if |parts| == 1 {
      SplitNoSeparator(parts[0], d);
    } else {
      SplitJoin(parts[1..], d);
      SplitNoSeparator(parts[0], d);
      SplitConcat(parts[0], Join([d], parts[1..]), d);
      assert [parts[0]] + parts[1..] == parts;
    }
  }

  /** The lists of `xss` one after the other. */
  function Flatten(xss: seq<seq<string>>): seq<string>
  {
    if |xss| == 0 then [] else xss[0] + Flatten(xss[1..])
  }

  lemma {:induction false} FlattenMember(xss: seq<seq<string>>, j: int, x: string)
    requires 0 <= j < |xss| && x in xss[j]
    ensures x in Flatten(xss)
  {
    if j > 0 {
      assert xss[1..][j - 1] == xss[j];
      FlattenMember(xss[1..], j - 1, x);
    }
  }

  lemma {:induction false} FlattenMemberInverse(xss: seq<seq<string>>, x: string)
    requires x in Flatten(xss)
    ensures exists j :: 0 <= j < |xss| && x in xss[j]
  {
    if x !in xss[0] {
      FlattenMemberInverse(xss[1..], x);
      var j :| 0 <= j < |xss[1..]| && x in xss[1..][j];
      assert x in xss[j + 1];
    }
  }

  function SplitAll(parts: seq<string>, d: char): (r: seq<seq<string>>)
    ensures |r| == |parts|
    ensures forall i :: 0 <= i < |parts| ==> r[i] == Split(parts[i], d)
  {
    seq(|parts|, i requires 0 <= i < |parts| => Split(parts[i], d))
  }

  function JoinAll(sep: string, xss: seq<seq<string>>): (r: seq<string>)
    ensures |r| == |xss|
    ensures forall i :: 0 <= i < |xss| ==> r[i] == Join(sep, xss[i])
  {
    seq(|xss|, i requires 0 <= i < |xss| => Join(sep, xss[i]))
  }

  /** The lines of a text glued from parts are the parts' lines, one part after the other. */
  lemma {:induction false} SplitOfJoin(parts: seq<string>, d: char)
    requires |parts| >= 1
    ensures Split(Join([d], parts), d) == Flatten(SplitAll(parts, d))
  {
    if |parts| == 1 {
      assert Flatten(SplitAll(parts, d)) == Split(parts[0], d) + [];
    } else {
      SplitOfJoin(parts[1..], d);
      SplitConcat(parts[0], Join([d], parts[1..]), d);
      assert SplitAll(parts, d)[1..] == SplitAll(parts[1..], d);
    }
  }

  lemma {:induction false} JoinFlatten(sep: string, xss: seq<seq<string>>)
    requires |xss| >= 1
    requires forall i :: 0 <= i < |xss| ==> xss[i] != []
    ensures Join(sep, Flatten(xss)) == Join(sep, JoinAll(sep, xss))
  {
    if |xss| == 1 {
      assert Flatten(xss) == xss[0] + [] == xss[0];
      assert Join(sep, JoinAll(sep, xss)) == JoinAll(sep, xss)[0];
    } else {
      JoinFlatten(sep, xss[1..]);
      assert JoinAll(sep, xss)[1..] == JoinAll(sep, xss[1..]);
      assert Flatten(xss[1..]) != [] by {
        assert Flatten(xss[1..]) == xss[1] + Flatten(xss[2..]);
      }
      JoinConcat(sep, xss[0], Flatten(xss[1..]));
    }
  }

  // ---------------------------------------------------------------------
  // str.strip()
  // ---------------------------------------------------------------------

  /** Python's `str.isspace()` for a single character. */
  predicate IsSpace(c: char)
  {
    ('\t' <= c <= '\r') || ('\U{1c}' <= c <= ' ') || c == '\U{85}' || c == '\U{a0}'
    || c == '\U{1680}' || ('\U{2000}' <= c <= '\U{200a}') || c == '\U{2028}' || c == '\U{2029}'
    || c == '\U{202f}' || c == '\U{205f}' || c == '\U{3000}'
  }

  predicate AllSpace(s: string)
  {
    forall i :: 0 <= i < |s| ==> IsSpace(s[i])
  }

  /** Neither end of `s` is whitespace. */
  predicate Trimmed(s: string)
  {
    s == [] || (!IsSpace(s[0]) && !IsSpace(s[|s| - 1]))
  }

  function LStrip(s: string): (r: string)
    ensures |r| <= |s| && r == s[|s| - |r|..] && AllSpace(s[..|s| - |r|])
    ensures r == [] || !IsSpace(r[0])
  {
    if |s| > 0 && IsSpace(s[0]) then
      var r := LStrip(s[1..]);
      assert s[1..][..|s| - 1 - |r|] == s[1..|s| - |r|];
      r
    else s
  }

  function RStrip(s: string): (r: string)
    ensures |r| <= |s| && r == s[..|r|] && AllSpace(s[|r|..])
    ensures r == [] || !IsSpace(r[|r| - 1])
  {
    if |s| > 0 && IsSpace(s[|s| - 1]) then
      var r := RStrip(s[..|s| - 1]);
      assert s[|r|..] == s[..|s| - 1][|r|..] + [s[|s| - 1]];
      r
    else s
  }

  /** `s.strip()`: what is left once leading and trailing whitespace is removed. */
  function Strip(s: string): (r: string)
    ensures Trimmed(r)
  {
    RStrip(LStrip(s))
  }

  lemma {:induction false} LStripSpaces(a: string, b: string)
    requires AllSpace(a)
    requires b == [] || !IsSpace(b[0])
    ensures LStrip(a + b) == b
  {
    if |a| > 0 {
      assert (a + b)[1..] == a[1..] + b;
      LStripSpaces(a[1..], b);
    } else {
      assert a + b == b;
    }
  }

  lemma {:induction false} RStripSpaces(b: string, c: string)
    requires AllSpace(c)
    requires b == [] || !IsSpace(b[|b| - 1])
    ensures RStrip(b + c) == b
  {
    if |c| > 0 {
      assert (b + c)[..|b + c| - 1] == b + c[..|c| - 1];
      RStripSpaces(b, c[..|c| - 1]);
    } else {
      assert b + c == b;
    }
  }

  /**
    Strip removes exactly the whitespace around a trimmed core: together with
    `Trimmed(Strip(s))` this characterises `str.strip()` completely.
   */
  lemma StripAround(a: string, b: string, c: string)
    requires AllSpace(a) && AllSpace(c) && Trimmed(b)
    ensures Strip(a + b + c) == b
  {
    if b == [] {
      assert a + b + c == a + c;
      assert AllSpace(a + c);
      LStripSpaces(a + c, []);
      assert a + c + [] == a + c;
    } else {
      assert a + b + c == a + (b + c);
      LStripSpaces(a, b + c);
      RStripSpaces(b, c);
    }
  }

  // ---------------------------------------------------------------------
  // str(int) and int(str)
  // ---------------------------------------------------------------------

  predicate IsDigit(c: char)
  {
    '0' <= c <= '9'
  }

  function DigitChar(d: nat): (c: char)
    requires d < 10
    ensures IsDigit(c) && c as int - '0' as int == d
  {
    (d + '0' as int) as char
  }

  /** The shortest decimal numeral of `n` (no leading zeros). */
  function NatToDecimal(n: nat): (r: string)
    ensures |r| >= 1 && (forall i :: 0 <= i < |r| ==> IsDigit(r[i]))
    ensures r[0] == '0' <==> n == 0
  {
    if n < 10 then [DigitChar(n)] else NatToDecimal(n / 10) + [DigitChar(n % 10)]
  }

  /** Python's `str(n)` for an integer: an optional minus sign, then the digits. */
  function IntToDecimal(n: int): (r: string)
    ensures forall i :: 0 <= i < |r| ==> IsDigit(r[i]) || (i == 0 && n < 0 && r[i] == '-')
  {
    if n < 0 then "-" + NatToDecimal(-n) else NatToDecimal(n)
  }

  function DigitsValue(s: string): nat
    requires forall i :: 0 <= i < |s| ==> IsDigit(s[i])
  {
    if |s| == 0 then 0
    else
      assert IsDigit(s[|s| - 1]);
      10 * DigitsValue(s[..|s| - 1]) + (s[|s| - 1] as int - '0' as int)
  }

  /** The inverse of `IntToDecimal`: an optional minus sign, then digits; anything else is rejected. */
  function ParseDecimal(s: string): Option<int>
  {
    if |s| > 0 && s[0] == '-' then
      (if |s| > 1 && forall i :: 1 <= i < |s| ==> IsDigit(s[i]) then Some(0 - DigitsValue(s[1..]) as int) else None)
    else if |s| > 0 && forall i :: 0 <= i < |s| ==> IsDigit(s[i]) then Some(DigitsValue(s))
    else None
  }

  lemma {:induction false} NatDecimalValue(n: nat)
    ensures DigitsValue(NatToDecimal(n)) == n
  {
    if n >= 10 {
      NatDecimalValue(n / 10);
      var r := NatToDecimal(n);
      assert r[..|r| - 1] == NatToDecimal(n / 10);
    }
  }

  /** Decimal rendering is inverted by parsing, so it loses no information. */
  lemma DecimalRoundTrip(n: int)
    ensures ParseDecimal(IntToDecimal(n)) == Some(n)
  {
    var s := IntToDecimal(n);
    if n < 0 {
      var d := NatToDecimal(-n);
      assert s == "-" + d;
      NatDecimalValue(-n);
      ParseNegative(d);
    } else {
      assert s == NatToDecimal(n);
      NatDecimalValue(n);
      ParseDigits(s);
    }
  }

  lemma ParseDigits(d: string)
    requires |d| >= 1 && forall i :: 0 <= i < |d| ==> IsDigit(d[i])
    ensures ParseDecimal(d) == Some(DigitsValue(d))
  {
    assert IsDigit(d[0]);
  }

  lemma ParseNegative(d: string)
    requires |d| >= 1 && forall i :: 0 <= i < |d| ==> IsDigit(d[i])
    ensures ParseDecimal("-" + d) == Some(0 - DigitsValue(d))
  {
    var s := "-" + d;
    assert s[1..] == d;
    assert forall i :: 1 <= i < |s| ==> s[i] == d[i - 1];
  }

  lemma NoCommaInDecimal(n: int)
    ensures ',' !in IntToDecimal(n)
  {
  }

  lemma DecimalInjective(m: int, n: int)
    requires IntToDecimal(m) == IntToDecimal(n)
    ensures m == n
  {
    DecimalRoundTrip(m);
    DecimalRoundTrip(n);
  }

  /** Whatever occurs in the stripped text occurs in the text: `strip` only cuts the ends off. */
  lemma ContainsBeforeStrip(s: string, t: string)
    requires Contains(Strip(s), t)
    ensures Contains(s, t)
  {
    StripOccurs(s);
    ContainsInOccurrence(t, Strip(s), s, |s| - |LStrip(s)|);
  }

  /** The stripped text is the stretch of the text after the leading whitespace. */
  lemma StripOccurs(s: string)
    ensures OccursAt(Strip(s), s, |s| - |LStrip(s)|)
  {
    HeadOfTail(RStrip(LStrip(s)), LStrip(s), s);
  }

  lemma HeadOfTail(r: string, l: string, s: string)
    requires |l| <= |s| && l == s[|s| - |l|..] && |r| <= |l| && r == l[..|r|]
    ensures OccursAt(r, s, |s| - |l|)
  {
    assert s[|s| - |l|..|s| - |l| + |r|] == l[..|r|];
  }

  lemma ContainsInOccurrence(t: string, u: string, s: string, i: int)
    requires Contains(u, t) && OccursAt(u, s, i)
    ensures Contains(s, t)
  {
    var j :| 0 <= j <= |u| && OccursAt(t, u, j);
    OccursWithin(t, u, s, j, i);
  }

  lemma CharOfOccurrence(t: string, s: string, i: int, k: int)
    requires OccursAt(t, s, i) && 0 <= k < |t|
    ensures s[i + k] == t[k]
  {
    assert s[i..i + |t|][k] == s[i + k];
  }

  /**
    A stretch with a newline on each side in a newline-join of newline-free
    parts is one of the parts.
   */
  lemma BetweenNewlinesIsPart(parts: seq<string>, w: string, o: int)
    requires |parts| >= 1 && forall k :: 0 <= k < |parts| ==> '\n' !in parts[k]
    requires '\n' !in w && OccursAt("\n" + w + "\n", Join("\n", parts), o)
    ensures w in parts
  {
    var s := Join("\n", parts);
    NewlinesAround(w, s, o);
    LineAt(s, o + 1, w, '\n');
    SplitJoin(parts, '\n');
  }

  lemma NewlinesAround(w: string, s: string, o: int)
    requires OccursAt("\n" + w + "\n", s, o)
    ensures OccursAt(w, s, o + 1) && s[o] == '\n' && s[o + 1 + |w|] == '\n'
  {
    var e := "\n" + w + "\n";
    OccursInConcat(w, "\n", w, "\n");
    OccursWithin(w, e, s, 1, o);
    CharOfOccurrence(e, s, o, 0);
    CharOfOccurrence(e, s, o, 1 + |w|);
  }
}
