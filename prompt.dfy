/**
  The prompt builder: the fixed instruction template with the question and
  the serialized context interpolated, then `textwrap.dedent`, then `strip()`.
 */
module Prompt {
  import opened Text
  import opened Dedent
  import opened Context

  // The template's lines without their indentation.  Long literals are
  // written as a few concatenated pieces; the text is unchanged.

  const RoleLine := "You are a financial and ESG " + "analyst answering questions " + "about EssilorLuxottica."
  const UseOnlyLine := "Use ONLY the information " + "provided in the text chunks below."
  const RespondLine := "If the answer does not appear " + "in the chunks, respond exactly:"
  /** The exact sentence the model must answer with when the chunks lack the answer. */
  const FallbackSentence := "Based on the provided documents, " + "this information is not available."
  const FallbackLine := "\"" + FallbackSentence + "\""
  /** The citation token format, shown to the model as an example. */
  const CitationExample := "[chunk_id=5]"
  const CiteRule := "1. Cite chunk_ids like this: " + CitationExample + "."
  const NoOutsideRule := "2. Do NOT introduce information " + "that is not in the chunks."
  const LengthRule := "3. Keep the answer to 3\U{2013}5 sentences."
  const RecencyRule := "4. If chunks conflict, choose " + "the one with the most recent year."
  const AnswerItem := "1. A direct answer (3\U{2013}5 sentences)."
  const NoteItem := "2. A short note on missing " + "or uncertain information."
  const ChunkListItem := "3. A list of chunk_ids used."

  /** The lines before the question. */
  const RoleLines: seq<string> := [
    RoleLine, "", UseOnlyLine, RespondLine, FallbackLine, "",
    "Rules:", CiteRule, NoOutsideRule, LengthRule, RecencyRule, "",
    "User question:"
  ]

  /** The lines between the question and the context. */
  const ChunksLines: seq<string> := ["", "Retrieved chunks:"]

  /** The lines after the context. */
  const OutputLines: seq<string> := ["", "Now provide:", AnswerItem, NoteItem, ChunkListItem]

  /** The indentation of every line of the template literal. */
  const TemplateIndent := "    "

  predicate TemplateLineOk(line: string)
  {
    '\n' !in line && (line != "" ==> !IsMarginChar(line[0]))
  }

  predicate LinesOk(lines: seq<string>)
  {
    forall i :: 0 <= i < |lines| ==> TemplateLineOk(lines[i])
  }

  /** A non-empty group of template lines, each free of newlines and of leading blanks. */
  predicate Shaped(lines: seq<string>)
  {
    |lines| >= 1 && LinesOk(lines)
  }

  /** The first line of the group begins with a visible character. */
  predicate Opens(lines: seq<string>)
  {
    |lines| >= 1 && lines[0] != "" && !IsSpace(lines[0][0])
  }

  /** The last line of the group ends with a visible character. */
  predicate Closes(lines: seq<string>)
  {
    |lines| >= 1 && lines[|lines| - 1] != "" && !IsSpace(lines[|lines| - 1][|lines[|lines| - 1]| - 1])
  }

  /** Template lines with `pad` in front of each non-empty one. */
  function Reindented(pad: string, lines: seq<string>): (r: seq<string>)
    ensures |r| == |lines|
    ensures forall i :: 0 <= i < |lines| ==> r[i] == if lines[i] == "" then "" else pad + lines[i]
  {
    seq(|lines|, i requires 0 <= i < |lines| => if lines[i] == "" then "" else pad + lines[i])
  }

  function TemplateBlock(pad: string, lines: seq<string>): string
  {
    Join("\n", Reindented(pad, lines))
  }

  /** The five parts of a prompt body: three groups of template lines, the question and the context. */
  function LayoutPartsOf(pad: string, role: seq<string>, mid: seq<string>, out: seq<string>,
                         question: string, context: string): seq<string>
  {
    [TemplateBlock(pad, role), question, TemplateBlock(pad, mid), context, TemplateBlock(pad, out)]
  }

  /**
    The body of the prompt with the template lines indented by `pad` and the
    given question and context texts in their places.
   */
  function Layout(pad: string, question: string, context: string): string
  {
    Join("\n", LayoutPartsOf(pad, RoleLines, ChunksLines, OutputLines, question, context))
  }

  /** The lines of a template literal as separate parts: an empty first line, then the body indented, then an indented last line. */
  function TemplatePartsOf(role: seq<string>, mid: seq<string>, out: seq<string>,
                           question: string, context: string): seq<string>
  {
    ["", TemplateBlock(TemplateIndent, role), TemplateIndent + question, TemplateBlock(TemplateIndent, mid),
     TemplateIndent + context, TemplateBlock(TemplateIndent, out), TemplateIndent]
  }

  /**
    The f-string of `build_prompt`: it opens with a newline, every literal line
    is indented by four spaces, the question and the context follow four spaces
    on their own lines, and it closes with four spaces.
   */
  function Template(question: string, context: string): string
  {
    Join("\n", TemplatePartsOf(RoleLines, ChunksLines, OutputLines, question, context))
  }

  /** The margin `dedent` removes from the template for this question and context. */
  function TemplateMargin(question: string, context: string): (m: string)
    ensures IsPrefix(m, TemplateIndent)
  {
    TemplateLinesShaped();
    MarginWithinIndent(RoleLines, ChunksLines, OutputLines, question, context);
    MarginText(Split(Template(question, context), '\n'))
  }

  /** `build_prompt(question, chunks)`. */
  function BuildPrompt(question: string, chunks: seq<Chunk>): (r: string)
    ensures Trimmed(r)
  {
    Strip(Dedent.Dedent(Template(question, ContextString(chunks))))
  }

  // ---------------------------------------------------------------------
  // Facts about the literal lines
  // ---------------------------------------------------------------------

  lemma RoleLineOk() ensures TemplateLineOk(RoleLine) {}
  lemma UseOnlyLineOk() ensures TemplateLineOk(UseOnlyLine) {}
  lemma RespondLineOk() ensures TemplateLineOk(RespondLine) {}
  lemma FallbackSentenceOk() ensures '\n' !in FallbackSentence {}
  lemma FallbackLineOk() ensures TemplateLineOk(FallbackLine)
  {
    FallbackSentenceOk();
    assert FallbackLine[0] == '"';
  }
  lemma CiteRuleOk() ensures TemplateLineOk(CiteRule) {}
  lemma NoOutsideRuleOk() ensures TemplateLineOk(NoOutsideRule) {}
  lemma LengthRuleOk() ensures TemplateLineOk(LengthRule) {}
  lemma RecencyRuleOk() ensures TemplateLineOk(RecencyRule) {}
  lemma AnswerItemOk() ensures TemplateLineOk(AnswerItem) {}
  lemma NoteItemOk() ensures TemplateLineOk(NoteItem) {}
  lemma ChunkListItemOk() ensures TemplateLineOk(ChunkListItem) {}

  lemma TemplateLinesShaped()
    ensures Shaped(RoleLines) && Opens(RoleLines)
    ensures Shaped(ChunksLines)
    ensures Shaped(OutputLines) && Closes(OutputLines)
  {
    RoleLineOk();
    UseOnlyLineOk();
    RespondLineOk();
    FallbackLineOk();
    CiteRuleOk();
    NoOutsideRuleOk();
    LengthRuleOk();
    RecencyRuleOk();
    AnswerItemOk();
    NoteItemOk();
    ChunkListItemOk();
    assert TemplateLineOk("Rules:");
    assert TemplateLineOk("User question:");
    assert TemplateLineOk("Retrieved chunks:");
    assert TemplateLineOk("Now provide:");
    assert TemplateLineOk("");
    assert RoleLine[0] == 'Y';
    assert ChunkListItem[|ChunkListItem| - 1] == '.';
  }

  /** Where the lines quoted by the lemmas below sit in their groups. */
  lemma TemplateLinePlaces()
    ensures |RoleLines| == 13 && RoleLines[0] == RoleLine
    ensures RoleLines[4] == FallbackLine && FallbackLine != ""
    ensures RoleLines[7] == CiteRule && CiteRule != ""
    ensures |OutputLines| == 5 && OutputLines[4] == ChunkListItem
  {
  }

  // ---------------------------------------------------------------------
  // Template blocks under dedent
  // ---------------------------------------------------------------------

  predicate IsPad(pad: string)
  {
    forall i :: 0 <= i < |pad| ==> pad[i] == ' '
  }

  /** What is left of the template's indentation after removing a margin is still blanks. */
  lemma IndentRest(m: string)
    requires IsPrefix(m, TemplateIndent)
    ensures IsPad(TemplateIndent[|m|..])
  {
    assert IsPad(TemplateIndent);
    PadDrop(TemplateIndent, |m|);
  }

  lemma MarginIsPad(m: string)
    requires IsPrefix(m, TemplateIndent)
    ensures IsPad(m)
  {
    assert IsPad(TemplateIndent);
  }

  lemma PadDrop(pad: string, k: int)
    requires IsPad(pad) && 0 <= k <= |pad|
    ensures IsPad(pad[k..])
  {
  }

  lemma PadFacts(pad: string)
    requires IsPad(pad)
    ensures '\n' !in pad && AllSpace(pad)
    ensures forall i :: 0 <= i < |pad| ==> IsMarginChar(pad[i])
  {
  }

  lemma ReindentedLine(pad: string, lines: seq<string>, i: int)
    requires IsPad(pad) && LinesOk(lines) && 0 <= i < |lines|
    ensures '\n' !in Reindented(pad, lines)[i]
    ensures HasText(Reindented(pad, lines)[i]) <==> lines[i] != ""
    ensures lines[i] != "" ==> Indent(Reindented(pad, lines)[i]) == pad
  {
    PadFacts(pad);
    if lines[i] != "" {
      IndentOfIndented(pad, lines[i]);
      assert Indent(lines[i]) == "";
    }
  }

  lemma SplitBlock(pad: string, lines: seq<string>)
    requires IsPad(pad) && Shaped(lines)
    ensures Split(TemplateBlock(pad, lines), '\n') == Reindented(pad, lines)
  {
    forall i | 0 <= i < |lines| ensures '\n' !in Reindented(pad, lines)[i] {
      ReindentedLine(pad, lines, i);
    }
    SplitJoin(Reindented(pad, lines), '\n');
  }

  /** A template block dedented by a margin of at most its indentation keeps the rest of the indentation. */
  lemma DedentBlock(m: string, lines: seq<string>)
    requires IsPrefix(m, TemplateIndent) && Shaped(lines)
    ensures DedentPart(m, TemplateBlock(TemplateIndent, lines)) == TemplateBlock(TemplateIndent[|m|..], lines)
  {
    assert IsPad(TemplateIndent);
    DedentPaddedBlock(m, TemplateIndent, lines);
  }

  lemma DedentPaddedBlock(m: string, pad: string, lines: seq<string>)
    requires IsPad(pad) && IsPrefix(m, pad) && Shaped(lines)
    ensures DedentPart(m, TemplateBlock(pad, lines)) == TemplateBlock(pad[|m|..], lines)
  {
    SplitBlock(pad, lines);
    var re := Reindented(pad, lines);
    forall i | 0 <= i < |lines|
      ensures DedentWith(m, re)[i] == Reindented(pad[|m|..], lines)[i]
    {
      DedentPaddedLine(m, pad, lines[i]);
    }
    assert DedentWith(m, re) == Reindented(pad[|m|..], lines);
  }

  lemma DedentPaddedLine(m: string, pad: string, line: string)
    requires IsPad(pad) && IsPrefix(m, pad) && TemplateLineOk(line)
    ensures DedentLine(m, if line == "" then "" else pad + line) == if line == "" then "" else pad[|m|..] + line
  {
    if line != "" {
      PadFacts(pad);
      IndentOfIndented(pad, line);
      assert Indent(line) == "";
      assert (pad + line)[..|m|] == pad[..|m|];
      assert (pad + line)[|m|..] == pad[|m|..] + line;
    }
  }

  lemma DedentBlankParts(m: string)
    ensures DedentPart(m, "") == ""
    ensures DedentPart(m, TemplateIndent) == ""
  {
    SplitNoSeparator(TemplateIndent, '\n');
    assert Split("", '\n') == [""];
    assert !HasText(TemplateIndent);
    assert DedentWith(m, [TemplateIndent]) == [""];
    assert DedentWith(m, [""]) == [""];
  }

  // ---------------------------------------------------------------------
  // The margin
  // ---------------------------------------------------------------------

  lemma MemberOfTemplateLines(parts: seq<string>, j: int, line: string)
    requires 0 <= j < |parts| && line in Split(parts[j], '\n')
    ensures line in Split(Join("\n", parts), '\n')
  {
    SplitOfJoin(parts, '\n');
    FlattenMember(SplitAll(parts, '\n'), j, line);
  }

  /** Whatever the question and context, the margin is at most the template's four spaces. */
  lemma MarginWithinIndent(role: seq<string>, mid: seq<string>, out: seq<string>,
                           question: string, context: string)
    requires Shaped(role) && Opens(role)
    ensures IsPrefix(MarginText(Split(Join("\n", TemplatePartsOf(role, mid, out, question, context)), '\n')),
                     TemplateIndent)
  {
    var parts := TemplatePartsOf(role, mid, out, question, context);
    var line := TemplateIndent + role[0];
    SplitBlock(TemplateIndent, role);
    ReindentedLine(TemplateIndent, role, 0);
    assert line == Split(parts[1], '\n')[0];
    MemberOfTemplateLines(parts, 1, line);
    MarginIsCommonMember(Split(Join("\n", parts), '\n'), line);
  }

  // ---------------------------------------------------------------------
  // The layout after dedent and strip
  // ---------------------------------------------------------------------

  lemma JoinFramed(a: string, b: string, c: string, d: string, e: string, f: string)
    ensures Join("\n", ["", a, b, c, d, e, f]) == "\n" + Join("\n", [a, b, c, d, e]) + "\n" + f
  {
    var inner := [a, b, c, d, e];
    assert ["", a, b, c, d, e, f] == [""] + inner + [f];
    JoinConcat("\n", [""] + inner, [f]);
    JoinConcat("\n", [""], inner);
  }

  /** Dedenting the template dedents the question and the context with the same margin. */
  lemma DedentedTemplate(role: seq<string>, mid: seq<string>, out: seq<string>,
                         question: string, context: string, m: string)
    requires Shaped(role) && Shaped(mid) && Shaped(out)
    requires m == MarginText(Split(Join("\n", TemplatePartsOf(role, mid, out, question, context)), '\n'))
    requires IsPrefix(m, TemplateIndent)
    ensures Dedent.Dedent(Join("\n", TemplatePartsOf(role, mid, out, question, context)))
      == "\n" + Join("\n", LayoutPartsOf(TemplateIndent[|m|..], role, mid, out,
                                        DedentPart(m, TemplateIndent + question),
                                        DedentPart(m, TemplateIndent + context))) + "\n"
  {
    var parts := TemplatePartsOf(role, mid, out, question, context);
    var pad := TemplateIndent[|m|..];
    var dq, dc := DedentPart(m, TemplateIndent + question), DedentPart(m, TemplateIndent + context);
    var b1, b2, b3 := TemplateBlock(pad, role), TemplateBlock(pad, mid), TemplateBlock(pad, out);
    DedentJoined(parts);
    DedentTemplateParts(role, mid, out, question, context, m);
    JoinFramed(b1, dq, b2, dc, b3, "");
  }

  lemma DedentTemplateParts(role: seq<string>, mid: seq<string>, out: seq<string>,
                            question: string, context: string, m: string)
    requires Shaped(role) && Shaped(mid) && Shaped(out) && IsPrefix(m, TemplateIndent)
    ensures DedentParts(m, TemplatePartsOf(role, mid, out, question, context))
      == ["", TemplateBlock(TemplateIndent[|m|..], role), DedentPart(m, TemplateIndent + question),
          TemplateBlock(TemplateIndent[|m|..], mid), DedentPart(m, TemplateIndent + context),
          TemplateBlock(TemplateIndent[|m|..], out), ""]
  {
    DedentBlock(m, role);
    DedentBlock(m, mid);
    DedentBlock(m, out);
    DedentBlankParts(m);
    DedentSeven(m, "", TemplateBlock(TemplateIndent, role), TemplateIndent + question,
                TemplateBlock(TemplateIndent, mid), TemplateIndent + context,
                TemplateBlock(TemplateIndent, out), TemplateIndent,
                "", TemplateBlock(TemplateIndent[|m|..], role), DedentPart(m, TemplateIndent + question),
                TemplateBlock(TemplateIndent[|m|..], mid), DedentPart(m, TemplateIndent + context),
                TemplateBlock(TemplateIndent[|m|..], out), "");
  }

  lemma DedentSeven(m: string, p0: string, p1: string, p2: string, p3: string, p4: string, p5: string, p6: string,
                    r0: string, r1: string, r2: string, r3: string, r4: string, r5: string, r6: string)
    requires DedentPart(m, p0) == r0 && DedentPart(m, p1) == r1 && DedentPart(m, p2) == r2
    requires DedentPart(m, p3) == r3 && DedentPart(m, p4) == r4 && DedentPart(m, p5) == r5
    requires DedentPart(m, p6) == r6
    ensures DedentParts(m, [p0, p1, p2, p3, p4, p5, p6]) == [r0, r1, r2, r3, r4, r5, r6]
  {
    DedentSevenParts(m, [p0, p1, p2, p3, p4, p5, p6], [r0, r1, r2, r3, r4, r5, r6]);
  }

  lemma DedentSevenParts(m: string, parts: seq<string>, res: seq<string>)
    requires |parts| == 7 == |res|
    requires DedentPart(m, parts[0]) == res[0] && DedentPart(m, parts[1]) == res[1]
    requires DedentPart(m, parts[2]) == res[2] && DedentPart(m, parts[3]) == res[3]
    requires DedentPart(m, parts[4]) == res[4] && DedentPart(m, parts[5]) == res[5]
    requires DedentPart(m, parts[6]) == res[6]
    ensures DedentParts(m, parts) == res
  {
    forall i | 0 <= i < 7
      ensures DedentPart(m, parts[i]) == res[i]
    {
      if i == 0 {} else if i == 1 {} else if i == 2 {} else if i == 3 {} else if i == 4 {} else if i == 5 {} else {}
    }
    DedentPartsEach(m, parts, res);
  }

  lemma DedentPartsEach(m: string, parts: seq<string>, res: seq<string>)
    requires |parts| == |res|
    requires forall i :: 0 <= i < |parts| ==> DedentPart(m, parts[i]) == res[i]
    ensures DedentParts(m, parts) == res
  {
  }

  lemma LayoutStarts(pad: string, role: seq<string>, mid: seq<string>, out: seq<string>,
                     question: string, context: string)
    requires IsPad(pad) && Opens(role)
    ensures IsPrefix(pad + role[0], Join("\n", LayoutPartsOf(pad, role, mid, out, question, context)))
  {
    var parts := LayoutPartsOf(pad, role, mid, out, question, context);
    JoinKeepsFirst("\n", Reindented(pad, role));
    JoinKeepsFirst("\n", parts);
    PrefixTransitive(pad + role[0], TemplateBlock(pad, role), Join("\n", parts));
  }

  lemma LayoutEnds(pad: string, role: seq<string>, mid: seq<string>, out: seq<string>,
                   question: string, context: string)
    requires IsPad(pad) && Closes(out)
    ensures IsSuffix(pad + out[|out| - 1], Join("\n", LayoutPartsOf(pad, role, mid, out, question, context)))
  {
    var parts := LayoutPartsOf(pad, role, mid, out, question, context);
    var re, block := Reindented(pad, out), TemplateBlock(pad, out);
    assert IsSuffix(pad + out[|out| - 1], block) by {
      assert re[|re| - 1] == pad + out[|out| - 1];
      JoinKeepsLast("\n", re);
    }
    assert IsSuffix(block, Join("\n", parts)) by {
      assert parts[|parts| - 1] == block;
      JoinKeepsLast("\n", parts);
    }
    SuffixTransitive(pad + out[|out| - 1], block, Join("\n", parts));
  }

  lemma PaddedCore(pad: string, first: string, last: string, l: string)
    requires IsPrefix(pad + first, l) && IsSuffix(pad + last, l)
    ensures |pad| <= |l| && l == pad + l[|pad|..]
    ensures IsPrefix(first, l[|pad|..]) && IsSuffix(last, l[|pad|..])
  {
    var core := l[|pad|..];
    assert core[..|first|] == l[|pad|..|pad| + |first|];
    assert core[|core| - |last|..] == l[|l| - |last|..] == (pad + last)[|pad|..];
  }

  /**
    `l` between two newlines strips to `l` without its leading `pad`, and that
    stripped text begins with `first` and ends with `last`.
   */
  predicate StripsTo(pad: string, first: string, last: string, l: string)
  {
    l == pad + Strip("\n" + l + "\n")
    && IsPrefix(first, Strip("\n" + l + "\n")) && IsSuffix(last, Strip("\n" + l + "\n"))
  }

  /** A padded text between blank lines strips down to the text without its pad. */
  lemma StripPadded(pad: string, first: string, last: string, l: string)
    requires IsPad(pad) && first != "" && last != ""
    requires !IsSpace(first[0]) && !IsSpace(last[|last| - 1])
    requires IsPrefix(pad + first, l) && IsSuffix(pad + last, l)
    ensures StripsTo(pad, first, last, l)
  {
    PaddedCore(pad, first, last, l);
    var core := l[|pad|..];
    assert core[0] == first[0] && core[|core| - 1] == last[|last| - 1];
    assert Trimmed(core);
    PadFacts(pad);
    assert AllSpace("\n" + pad);
    StripAround("\n" + pad, core, "\n");
    ConcatAssoc("\n", pad, core);
  }

  /** Stripping the dedented template leaves the layout without its leading pad. */
  lemma StripLayout(pad: string, role: seq<string>, mid: seq<string>, out: seq<string>,
                    question: string, context: string)
    requires IsPad(pad) && Opens(role) && Closes(out)
    ensures StripsTo(pad, role[0], out[|out| - 1], Join("\n", LayoutPartsOf(pad, role, mid, out, question, context)))
  {
    LayoutStarts(pad, role, mid, out, question, context);
    LayoutEnds(pad, role, mid, out, question, context);
    StripPadded(pad, role[0], out[|out| - 1], Join("\n", LayoutPartsOf(pad, role, mid, out, question, context)));
  }

  /** The prompt built from any template of this shape. */
  function PromptOf(role: seq<string>, mid: seq<string>, out: seq<string>,
                    question: string, context: string): string
  {
    Strip(Dedent.Dedent(Join("\n", TemplatePartsOf(role, mid, out, question, context))))
  }

  lemma PromptLayoutOf(role: seq<string>, mid: seq<string>, out: seq<string>,
                       question: string, context: string)
    requires Shaped(role) && Opens(role) && Shaped(mid) && Shaped(out) && Closes(out)
    ensures var m := MarginText(Split(Join("\n", TemplatePartsOf(role, mid, out, question, context)), '\n'));
      && IsPrefix(m, TemplateIndent)
      && Join("\n", LayoutPartsOf(TemplateIndent[|m|..], role, mid, out,
                                  DedentPart(m, TemplateIndent + question),
                                  DedentPart(m, TemplateIndent + context)))
         == TemplateIndent[|m|..] + PromptOf(role, mid, out, question, context)
  {
    var m := MarginText(Split(Join("\n", TemplatePartsOf(role, mid, out, question, context)), '\n'));
    MarginWithinIndent(role, mid, out, question, context);
    var pad := TemplateIndent[|m|..];
    DedentedTemplate(role, mid, out, question, context, m);
    IndentRest(m);
    StripLayout(pad, role, mid, out, DedentPart(m, TemplateIndent + question), DedentPart(m, TemplateIndent + context));
  }

  lemma PromptFrameOf(role: seq<string>, mid: seq<string>, out: seq<string>,
                      question: string, context: string)
    requires Shaped(role) && Opens(role) && Shaped(mid) && Shaped(out) && Closes(out)
    ensures IsPrefix(role[0], PromptOf(role, mid, out, question, context))
    ensures IsSuffix(out[|out| - 1], PromptOf(role, mid, out, question, context))
  {
    var m := MarginText(Split(Join("\n", TemplatePartsOf(role, mid, out, question, context)), '\n'));
    MarginWithinIndent(role, mid, out, question, context);
    DedentedTemplate(role, mid, out, question, context, m);
    IndentRest(m);
    StripLayout(TemplateIndent[|m|..], role, mid, out,
                DedentPart(m, TemplateIndent + question), DedentPart(m, TemplateIndent + context));
  }

  lemma PromptIsPromptOf(question: string, chunks: seq<Chunk>)
    ensures BuildPrompt(question, chunks) == PromptOf(RoleLines, ChunksLines, OutputLines, question, ContextString(chunks))
  {
  }

  lemma TemplateMarginIsMarginOf(question: string, context: string)
    ensures TemplateMargin(question, context)
      == MarginText(Split(Join("\n", TemplatePartsOf(RoleLines, ChunksLines, OutputLines, question, context)), '\n'))
  {
  }

  /**
    The prompt for every question and chunk list: the template's lines with the
    margin taken off (the margin is at most their four spaces), the question
    and context dedented with the same margin; what the margin leaves of the
    template's indentation is all that `strip` removes.
   */
  lemma PromptLayout(question: string, chunks: seq<Chunk>)
    ensures var m := TemplateMargin(question, ContextString(chunks));
      Layout(TemplateIndent[|m|..], DedentPart(m, TemplateIndent + question),
             DedentPart(m, TemplateIndent + ContextString(chunks)))
      == TemplateIndent[|m|..] + BuildPrompt(question, chunks)
  {
    TemplateLinesShaped();
    PromptIsPromptOf(question, chunks);
    TemplateMarginIsMarginOf(question, ContextString(chunks));
    PromptLayoutOf(RoleLines, ChunksLines, OutputLines, question, ContextString(chunks));
  }

  /** The prompt opens with the role line and closes with the last output item. */
  lemma PromptFrame(question: string, chunks: seq<Chunk>)
    ensures IsPrefix(RoleLine, BuildPrompt(question, chunks))
    ensures IsSuffix(ChunkListItem, BuildPrompt(question, chunks))
  {
    TemplateLinesShaped();
    TemplateLinePlaces();
    PromptIsPromptOf(question, chunks);
    PromptFrameOf(RoleLines, ChunksLines, OutputLines, question, ContextString(chunks));
  }

  // ---------------------------------------------------------------------
  // Template lines that always reach the prompt
  // ---------------------------------------------------------------------

  lemma OccursInJoin(sep: string, parts: seq<string>, k: nat, t: string, j: int)
    requires k < |parts| && OccursAt(t, parts[k], j)
    ensures OccursAt(t, Join(sep, parts), PartOffset(sep, parts, k) + j)
  {
    JoinPartAt(sep, parts, k);
    OccursWithin(t, parts[k], Join(sep, parts), j, PartOffset(sep, parts, k));
  }

  lemma GroupLineInBody(pad: string, lines: seq<string>, k: int, parts: seq<string>, p: string)
    requires 0 <= k < |lines| && lines[k] != ""
    requires |parts| >= 1 && parts[0] == TemplateBlock(pad, lines)
    requires Join("\n", parts) == pad + p
    ensures Contains(p, lines[k])
  {
    GroupLineInBlock(pad, lines, k);
    var o := PartOffset("\n", Reindented(pad, lines), k) + |pad|;
    OccursInJoin("\n", parts, 0, lines[k], o);
    OccursPastPrefix(lines[k], pad, p, o);
  }

  lemma GroupLineInBlock(pad: string, lines: seq<string>, k: int)
    requires 0 <= k < |lines| && lines[k] != ""
    ensures OccursAt(lines[k], TemplateBlock(pad, lines), PartOffset("\n", Reindented(pad, lines), k) + |pad|)
  {
    var re := Reindented(pad, lines);
    assert re[k] == pad + lines[k];
    OccursAtEnd(pad, lines[k]);
    OccursInJoin("\n", re, k, lines[k], |pad|);
  }

  /** Every non-empty line of the first group appears in the prompt, whatever the margin. */
  lemma RoleLineInPromptOf(role: seq<string>, mid: seq<string>, out: seq<string>,
                           question: string, context: string, k: int)
    requires Shaped(role) && Opens(role) && Shaped(mid) && Shaped(out) && Closes(out)
    requires 0 <= k < |role| && role[k] != ""
    ensures Contains(PromptOf(role, mid, out, question, context), role[k])
  {
    var m := MarginText(Split(Join("\n", TemplatePartsOf(role, mid, out, question, context)), '\n'));
    PromptLayoutOf(role, mid, out, question, context);
    var pad := TemplateIndent[|m|..];
    GroupLineInBody(pad, role, k,
                    LayoutPartsOf(pad, role, mid, out, DedentPart(m, TemplateIndent + question),
                                  DedentPart(m, TemplateIndent + context)),
                    PromptOf(role, mid, out, question, context));
  }

  /** The instruction to answer with the fixed fallback sentence is always in the prompt. */
  lemma FallbackInPrompt(question: string, chunks: seq<Chunk>)
    ensures Contains(BuildPrompt(question, chunks), FallbackLine)
  {
    TemplateLinesShaped();
    TemplateLinePlaces();
    PromptIsPromptOf(question, chunks);
    RoleLineInPromptOf(RoleLines, ChunksLines, OutputLines, question, ContextString(chunks), 4);
  }

  /** The instruction to cite chunk ids, with the citation format, is always in the prompt. */
  lemma CitationRuleInPrompt(question: string, chunks: seq<Chunk>)
    ensures Contains(BuildPrompt(question, chunks), CiteRule)
  {
    TemplateLinesShaped();
    TemplateLinePlaces();
    PromptIsPromptOf(question, chunks);
    RoleLineInPromptOf(RoleLines, ChunksLines, OutputLines, question, ContextString(chunks), 7);
  }

  // ---------------------------------------------------------------------
  // When dedent leaves the template alone
  // ---------------------------------------------------------------------

  /** Some line of the text has text and no indentation at all. */
  predicate HasFlushLine(part: string)
  {
    exists line :: line in Split(part, '\n') && HasText(line) && Indent(line) == ""
  }

  /** No line of the text is made only of spaces and tabs (`dedent` would empty it). */
  predicate NoBlankableLine(part: string)
  {
    forall line :: line in Split(part, '\n') ==> !WhitespaceOnly(line)
  }

  /** A text whose first character is neither a space, a tab nor a newline, so its first line has text at the left edge. */
  predicate StartsFlush(text: string)
  {
    text != "" && !IsMarginChar(text[0]) && text[0] != '\n'
  }

  lemma FlushAfterNewline(a: string, b: string)
    requires StartsFlush(b)
    ensures HasFlushLine(a + "\n" + b)
  {
    SplitConcat(a, b, '\n');
    var line := Split(b, '\n')[0];
    assert line[0] == b[0];
    assert Indent(line) == "";
    assert line in Split(a + "\n" + b, '\n');
  }

  lemma FlushContextMany(chunks: seq<Chunk>)
    requires |chunks| >= 2
    ensures HasFlushLine(TemplateIndent + ContextString(chunks))
  {
    BlockStartsFlush(chunks[1]);
    FlushSecondBlock(TemplateIndent, Blocks(chunks));
  }

  /** A block opens with the `[` of its header. */
  lemma BlockStartsFlush(c: Chunk)
    ensures StartsFlush(Block(c))
  {
    var h := Header(c);
    assert h == "[chunk_id=" + (IntToDecimal(c.chunkId) + ", source=" + c.source + ", doc_type=" + c.docType
                                + ", year=" + IntToDecimal(c.year) + "]");
    assert (h + "\n" + c.text)[0] == '[';
  }

  lemma FlushSecondBlock(pad: string, blocks: seq<string>)
    requires |blocks| >= 2 && StartsFlush(blocks[1])
    ensures HasFlushLine(pad + Join("\n\n", blocks))
  {
    var rest := Join("\n\n", blocks[1..]);
    assert Join("\n\n", blocks) == blocks[0] + "\n\n" + rest;
    JoinKeepsFirst("\n\n", blocks[1..]);
    assert rest[0] == blocks[1][0];
    FlushAfterNewline(pad + blocks[0] + "\n", rest);
    assert pad + blocks[0] + "\n" + "\n" + rest == pad + Join("\n\n", blocks);
  }

  lemma FlushContextOne(chunks: seq<Chunk>)
    requires |chunks| == 1 && StartsFlush(chunks[0].text)
    ensures HasFlushLine(TemplateIndent + ContextString(chunks))
  {
    var h, t := Header(chunks[0]), chunks[0].text;
    assert ContextString(chunks) == Blocks(chunks)[0] == h + "\n" + t;
    FlushAfterNewline(TemplateIndent + h, t);
    assert TemplateIndent + h + "\n" + t == TemplateIndent + ContextString(chunks);
  }

  /**
    The context has a line at the left edge when at least two chunks were
    retrieved (the second header starts with `[`), or when the first chunk's
    text starts at the left edge.
   */
  lemma FlushContext(chunks: seq<Chunk>)
    requires |chunks| >= 2 || (|chunks| == 1 && StartsFlush(chunks[0].text))
    ensures HasFlushLine(TemplateIndent + ContextString(chunks))
  {
    if |chunks| >= 2 {
      FlushContextMany(chunks);
    } else {
      FlushContextOne(chunks);
    }
  }

  lemma MarginFlushOf(role: seq<string>, mid: seq<string>, out: seq<string>,
                      question: string, context: string)
    requires HasFlushLine(TemplateIndent + context)
    ensures MarginText(Split(Join("\n", TemplatePartsOf(role, mid, out, question, context)), '\n')) == ""
  {
    var parts := TemplatePartsOf(role, mid, out, question, context);
    var line :| line in Split(TemplateIndent + context, '\n') && HasText(line) && Indent(line) == "";
    MemberOfTemplateLines(parts, 4, line);
    MarginIsCommonMember(Split(Join("\n", parts), '\n'), line);
  }

  /** With no margin and no line to blank, dedenting a part changes nothing. */
  lemma DedentPartUnchanged(part: string)
    requires NoBlankableLine(part)
    ensures DedentPart("", part) == part
  {
    var lines := Split(part, '\n');
    forall i | 0 <= i < |lines| ensures DedentLine("", lines[i]) == lines[i] {
      assert lines[i] in lines;
      if !HasText(lines[i]) {
        NoTextMeansBlank(lines[i]);
      }
    }
    assert DedentWith("", lines) == lines;
    JoinSplit(part, '\n');
  }

  lemma TemplateFramedOf(role: seq<string>, mid: seq<string>, out: seq<string>,
                         question: string, context: string)
    ensures Join("\n", TemplatePartsOf(role, mid, out, question, context))
      == "\n" + Join("\n", LayoutPartsOf(TemplateIndent, role, mid, out,
                                        TemplateIndent + question, TemplateIndent + context))
         + "\n" + TemplateIndent
  {
    JoinFramed(TemplateBlock(TemplateIndent, role), TemplateIndent + question, TemplateBlock(TemplateIndent, mid),
               TemplateIndent + context, TemplateBlock(TemplateIndent, out), TemplateIndent);
  }

  lemma PromptKeepsTemplateOf(role: seq<string>, mid: seq<string>, out: seq<string>,
                              question: string, context: string)
    requires Shaped(role) && Opens(role) && Shaped(mid) && Shaped(out) && Closes(out)
    requires HasFlushLine(TemplateIndent + context)
    requires NoBlankableLine(TemplateIndent + question) && NoBlankableLine(TemplateIndent + context)
    ensures Join("\n", LayoutPartsOf(TemplateIndent, role, mid, out,
                                    TemplateIndent + question, TemplateIndent + context))
      == TemplateIndent + PromptOf(role, mid, out, question, context)
  {
    MarginFlushOf(role, mid, out, question, context);
    PromptLayoutOf(role, mid, out, question, context);
    assert TemplateIndent[0..] == TemplateIndent;
    DedentPartUnchanged(TemplateIndent + question);
    DedentPartUnchanged(TemplateIndent + context);
  }

  /**
    A context with a line of text at the left edge empties the margin, whatever
    the question and whether or not some line is made only of spaces and tabs.
   */
  lemma FlushContextEmptiesMargin(question: string, chunks: seq<Chunk>)
    requires HasFlushLine(TemplateIndent + ContextString(chunks))
    ensures TemplateMargin(question, ContextString(chunks)) == ""
  {
    TemplateMarginIsMarginOf(question, ContextString(chunks));
    MarginFlushOf(RoleLines, ChunksLines, OutputLines, question, ContextString(chunks));
  }

  /**
    With the margin empty (`FlushContextEmptiesMargin`), the only lines
    `dedent` still changes are those made only of spaces and tabs. When
    neither the indented question nor the indented context has one, every
    line survives unchanged, and the prompt is the template itself without
    its opening newline and indentation and its closing newline and
    indentation: the question and the context are passed through verbatim.
   */
  lemma PromptKeepsTemplate(question: string, chunks: seq<Chunk>)
    requires HasFlushLine(TemplateIndent + ContextString(chunks))
    requires NoBlankableLine(TemplateIndent + question)
    requires NoBlankableLine(TemplateIndent + ContextString(chunks))
    ensures Template(question, ContextString(chunks))
      == "\n" + TemplateIndent + BuildPrompt(question, chunks) + "\n" + TemplateIndent
  {
    var c := ContextString(chunks);
    TemplateLinesShaped();
    PromptIsPromptOf(question, chunks);
    PromptKeepsTemplateOf(RoleLines, ChunksLines, OutputLines, question, c);
    TemplateFramedOf(RoleLines, ChunksLines, OutputLines, question, c);
    ConcatAssoc("\n", TemplateIndent, BuildPrompt(question, chunks));
  }

  lemma ContextInBody(parts: seq<string>, context: string, p: string)
    requires |parts| == 5 && parts[3] == TemplateIndent + context
    requires Join("\n", parts) == TemplateIndent + p
    ensures Contains(p, context)
  {
    JoinPartAt("\n", parts, 3);
    var o := PartOffset("\n", parts, 3);
    assert OccursAt(context, TemplateIndent + context, 4);
    OccursWithin(context, TemplateIndent + context, Join("\n", parts), 4, o);
    OccursPastPrefix(context, TemplateIndent, p, o + 4);
  }

  lemma ContextInPromptOf(role: seq<string>, mid: seq<string>, out: seq<string>,
                          question: string, context: string)
    requires Shaped(role) && Opens(role) && Shaped(mid) && Shaped(out) && Closes(out)
    requires HasFlushLine(TemplateIndent + context)
    requires NoBlankableLine(TemplateIndent + context)
    ensures Contains(PromptOf(role, mid, out, question, context), context)
  {
    MarginFlushOf(role, mid, out, question, context);
    PromptLayoutOf(role, mid, out, question, context);
    assert TemplateIndent[0..] == TemplateIndent;
    DedentPartUnchanged(TemplateIndent + context);
    ContextInBody(LayoutPartsOf(TemplateIndent, role, mid, out, DedentPart("", TemplateIndent + question),
                                TemplateIndent + context),
                  context, PromptOf(role, mid, out, question, context));
  }

  /** Under the same conditions the serialized context appears verbatim in the prompt. */
  lemma ContextInPrompt(question: string, chunks: seq<Chunk>)
    requires HasFlushLine(TemplateIndent + ContextString(chunks))
    requires NoBlankableLine(TemplateIndent + ContextString(chunks))
    ensures Contains(BuildPrompt(question, chunks), ContextString(chunks))
  {
    TemplateLinesShaped();
    PromptIsPromptOf(question, chunks);
    ContextInPromptOf(RoleLines, ChunksLines, OutputLines, question, ContextString(chunks));
  }

  /**
    Citation integrity: when at least two chunks were retrieved, or one whose
    text starts at the left edge, and no line of the context is made only of
    spaces and tabs, every retrieved chunk's header, with its id, and its text
    appear verbatim in the prompt.
   */
  lemma ChunkInPrompt(question: string, chunks: seq<Chunk>, i: nat)
    requires i < |chunks|
    requires |chunks| >= 2 || StartsFlush(chunks[0].text)
    requires NoBlankableLine(TemplateIndent + ContextString(chunks))
    ensures Contains(BuildPrompt(question, chunks), Header(chunks[i]))
    ensures Contains(BuildPrompt(question, chunks), IntToDecimal(chunks[i].chunkId))
    ensures Contains(BuildPrompt(question, chunks), chunks[i].text)
  {
    FlushContext(chunks);
    ContextInPrompt(question, chunks);
    ChunkInText(chunks, i, BuildPrompt(question, chunks));
  }

  /**
    The limit of citation integrity: a chunk text holding a line made only of
    spaces and tabs never reaches the prompt verbatim, whatever else the
    context holds, because `dedent` empties that line.
   */
  lemma BlankLineBreaksCitation(question: string, chunks: seq<Chunk>, i: nat, w: string)
    requires i < |chunks| && WhitespaceOnly(w) && Contains(chunks[i].text, "\n" + w + "\n")
    ensures !Contains(BuildPrompt(question, chunks), chunks[i].text)
  {
    if Contains(BuildPrompt(question, chunks), chunks[i].text) {
      WhitespaceOnlyIsOneLine(w);
      CitedLineHasText(question, chunks, i, w);
      assert false;
    }
  }

  /** A line between two newlines of a chunk text that does reach the prompt has visible text. */
  lemma CitedLineHasText(question: string, chunks: seq<Chunk>, i: nat, w: string)
    requires i < |chunks| && '\n' !in w && Contains(chunks[i].text, "\n" + w + "\n")
    requires Contains(BuildPrompt(question, chunks), chunks[i].text)
    ensures !WhitespaceOnly(w)
  {
    var e, t := "\n" + w + "\n", Template(question, ContextString(chunks));
    ContainsTransitive(e, chunks[i].text, BuildPrompt(question, chunks));
    ContainsBeforeStrip(Dedent.Dedent(t), e);
    var o :| 0 <= o <= |Dedent.Dedent(t)| && OccursAt(e, Dedent.Dedent(t), o);
    DedentedLineBetweenNewlines(t, w, o);
  }

  /** The smallest such text: "Revenue 2024", a line of two spaces, "EBITDA". */
  lemma BlankLineExample(question: string, c: Chunk)
    ensures !Contains(BuildPrompt(question, [c.(text := "Revenue 2024\n  \nEBITDA")]), "Revenue 2024\n  \nEBITDA")
  {
    var text := "Revenue 2024\n  \nEBITDA";
    assert "\n" + "  " + "\n" == text[12..16];
    assert OccursAt("\n" + "  " + "\n", text, 12);
    BlankLineBreaksCitation(question, [c.(text := text)], 0, "  ");
  }

  // ---------------------------------------------------------------------
  // Headers and the question, whatever the chunk texts hold
  // ---------------------------------------------------------------------

  /** One of the lines of `s` is the spaces `pre` followed by `t`, which starts with visible text. */
  predicate TextBehindPad(pre: string, t: string, s: string)
  {
    IsPad(pre) && t != "" && !IsMarginChar(t[0]) && pre + t in Split(s, '\n')
  }

  /** Dedenting a line by spaces keeps what follows the line's own run of spaces. */
  lemma DedentLineKeeps(m: string, pre: string, t: string)
    requires IsPad(m) && IsPad(pre) && t != "" && !IsMarginChar(t[0])
    ensures Contains(DedentLine(m, pre + t), t)
  {
    PadFacts(pre);
    PadFacts(m);
    IndentOfIndented(pre, t);
    assert Indent(t) == "";
    if IsPrefix(m, pre + t) {
      assert (pre + t)[|pre|] == t[0];
      assert |m| <= |pre|;
      assert (pre + t)[|m|..] == pre[|m|..] + t;
      assert OccursAt(t, pre[|m|..] + t, |pre| - |m|);
    } else {
      assert DedentLine(m, pre + t) == pre + t;
      assert (pre + t)[|pre|..|pre| + |t|] == t;
      assert OccursAt(t, pre + t, |pre|);
    }
  }

  /** A line of a part that is spaces followed by `t` keeps `t` through dedenting the part. */
  lemma LineInDedentPart(m: string, part: string, pre: string, t: string)
    requires IsPad(m) && TextBehindPad(pre, t, part)
    ensures Contains(DedentPart(m, part), t)
  {
    var lines := Split(part, '\n');
    var k :| 0 <= k < |lines| && lines[k] == pre + t;
    var d := DedentWith(m, lines);
    DedentLineKeeps(m, pre, t);
    var j :| 0 <= j <= |d[k]| && OccursAt(t, d[k], j);
    OccursInJoin("\n", d, k, t, j);
  }

  /** Whatever a later part of the laid-out body holds, the prompt it spells out holds. */
  lemma InLaterPart(pad: string, parts: seq<string>, k: nat, t: string, p: string)
    requires 1 <= k < |parts| && Contains(parts[k], t)
    requires |pad| <= |parts[0]| && Join("\n", parts) == pad + p
    ensures Contains(p, t)
  {
    var j :| 0 <= j <= |parts[k]| && OccursAt(t, parts[k], j);
    OccursInJoin("\n", parts, k, t, j);
    OccursPastPrefix(t, pad, p, PartOffset("\n", parts, k) + j);
  }

  /** The body's first part, the role lines, is at least as long as the pad in front of it. */
  lemma RoleCoversPad(pad: string, role: seq<string>)
    requires Opens(role)
    ensures |pad| <= |TemplateBlock(pad, role)|
  {
    JoinKeepsFirst("\n", Reindented(pad, role));
  }

  /** A context line made of spaces and then `t` leaves `t` in the prompt. */
  lemma ContextLineInPromptOf(role: seq<string>, mid: seq<string>, out: seq<string>,
                              question: string, context: string, pre: string, t: string)
    requires Shaped(role) && Opens(role) && Shaped(mid) && Shaped(out) && Closes(out)
    requires TextBehindPad(pre, t, TemplateIndent + context)
    ensures Contains(PromptOf(role, mid, out, question, context), t)
  {
    PromptLayoutOf(role, mid, out, question, context);
    var m := MarginText(Split(Join("\n", TemplatePartsOf(role, mid, out, question, context)), '\n'));
    var pad := TemplateIndent[|m|..];
    MarginIsPad(m);
    LineInDedentPart(m, TemplateIndent + context, pre, t);
    RoleCoversPad(pad, role);
    InLaterPart(pad, LayoutPartsOf(pad, role, mid, out, DedentPart(m, TemplateIndent + question),
                                   DedentPart(m, TemplateIndent + context)),
                3, t, PromptOf(role, mid, out, question, context));
  }

  /** The spaces in front of a header line of the indented context: the template's indent for the first one only. */
  function HeaderPad(i: nat): string
  {
    if i == 0 then TemplateIndent else ""
  }

  lemma HeaderPadIsPad(i: nat)
    ensures IsPad(HeaderPad(i))
  {
    assert IsPad(TemplateIndent);
  }

  /** In the indented context, the header of chunk `i` fills a line behind `HeaderPad(i)`. */
  lemma HeaderLineOfContext(chunks: seq<Chunk>, i: nat)
    requires i < |chunks| && '\n' !in Header(chunks[i])
    ensures HeaderPad(i) + Header(chunks[i]) in Split(TemplateIndent + ContextString(chunks), '\n')
  {
    var s, h, o := ContextString(chunks), Header(chunks[i]), Offset(chunks, i);
    HeaderOnLine(chunks, i);
    if i == 0 {
      FirstLineBehindPad(TemplateIndent, s, h);
    } else {
      LaterLineBehindPad(TemplateIndent, s, h, o);
      assert "" + h == h;
    }
  }

  lemma FirstLineBehindPad(p: string, s: string, h: string)
    requires LineStartsAt(h, s, 0) && '\n' !in p && '\n' !in h
    ensures p + h in Split(p + s, '\n')
  {
    assert OccursAt(p + h, p + s, 0);
    assert (p + s)[|p| + |h|] == s[|h|];
    LineAt(p + s, 0, p + h, '\n');
  }

  lemma LaterLineBehindPad(p: string, s: string, h: string, o: int)
    requires LineStartsAt(h, s, o) && o > 0 && '\n' !in h
    ensures h in Split(p + s, '\n')
  {
    OccursAtShift(h, s, o, p, "");
    assert p + s + "" == p + s;
    assert (p + s)[|p| + o - 1] == s[o - 1];
    assert (p + s)[|p| + o + |h|] == s[o + |h|];
    LineAt(p + s, |p| + o, h, '\n');
  }

  /**
    Citation integrity for the headers: every retrieved chunk's header, and so
    its id, appears verbatim in the prompt, whatever the chunk texts hold, as
    long as the chunk's source and document type are single lines.
   */
  lemma HeaderInPrompt(question: string, chunks: seq<Chunk>, i: nat)
    requires i < |chunks|
    requires '\n' !in chunks[i].source && '\n' !in chunks[i].docType
    ensures Contains(BuildPrompt(question, chunks), Header(chunks[i]))
    ensures Contains(BuildPrompt(question, chunks), IntToDecimal(chunks[i].chunkId))
  {
    HeaderLineReady(chunks, i);
    TemplateLinesShaped();
    PromptIsPromptOf(question, chunks);
    ContextLineInPromptOf(RoleLines, ChunksLines, OutputLines, question, ContextString(chunks),
                          HeaderPad(i), Header(chunks[i]));
    IdInHeader(chunks[i], BuildPrompt(question, chunks));
  }

  lemma HeaderLineReady(chunks: seq<Chunk>, i: nat)
    requires i < |chunks|
    requires '\n' !in chunks[i].source && '\n' !in chunks[i].docType
    ensures TextBehindPad(HeaderPad(i), Header(chunks[i]), TemplateIndent + ContextString(chunks))
  {
    HeaderIsOneLine(chunks[i]);
    HeaderPadIsPad(i);
    HeaderLineOfContext(chunks, i);
  }

  /** A single-line question with text comes out of dedenting as the rest of the indent, then itself. */
  lemma DedentQuestionLine(m: string, question: string)
    requires IsPrefix(m, TemplateIndent) && '\n' !in question && HasText(question)
    ensures DedentPart(m, TemplateIndent + question) == TemplateIndent[|m|..] + question
  {
    assert IsPad(TemplateIndent);
    DedentPaddedText(m, TemplateIndent, question);
  }

  lemma DedentPaddedText(m: string, p: string, q: string)
    requires IsPad(p) && IsPrefix(m, p) && '\n' !in q && HasText(q)
    ensures DedentPart(m, p + q) == p[|m|..] + q
  {
    PadFacts(p);
    IndentOfIndented(p, q);
    assert HasText(p + q);
    assert (p + q)[..|m|] == m;
    assert (p + q)[|m|..] == p[|m|..] + q;
    assert DedentLine(m, p + q) == p[|m|..] + q;
    DedentSingleLine(m, p + q);
  }

  /** A part without a newline is dedented as the single line it is. */
  lemma DedentSingleLine(m: string, line: string)
    requires '\n' !in line
    ensures DedentPart(m, line) == DedentLine(m, line)
  {
    SplitNoSeparator(line, '\n');
    assert DedentWith(m, [line]) == [DedentLine(m, line)];
  }

  lemma QuestionInPromptOf(role: seq<string>, mid: seq<string>, out: seq<string>,
                           question: string, context: string)
    requires Shaped(role) && Opens(role) && Shaped(mid) && Shaped(out) && Closes(out)
    requires '\n' !in question && HasText(question)
    ensures Contains(PromptOf(role, mid, out, question, context), question)
  {
    PromptLayoutOf(role, mid, out, question, context);
    var m := MarginText(Split(Join("\n", TemplatePartsOf(role, mid, out, question, context)), '\n'));
    var pad := TemplateIndent[|m|..];
    DedentQuestionLine(m, question);
    ContainsTail(pad, question);
    RoleCoversPad(pad, role);
    InLaterPart(pad, LayoutPartsOf(pad, role, mid, out, DedentPart(m, TemplateIndent + question),
                                   DedentPart(m, TemplateIndent + context)),
                1, question, PromptOf(role, mid, out, question, context));
  }

  /** A one-line question with some text appears verbatim in the prompt, whatever was retrieved. */
  lemma QuestionInPrompt(question: string, chunks: seq<Chunk>)
    requires '\n' !in question && HasText(question)
    ensures Contains(BuildPrompt(question, chunks), question)
  {
    TemplateLinesShaped();
    PromptIsPromptOf(question, chunks);
    QuestionInPromptOf(RoleLines, ChunksLines, OutputLines, question, ContextString(chunks));
  }

  // ---------------------------------------------------------------------
  // No chunks retrieved
  // ---------------------------------------------------------------------

  lemma TextLineOfBlock(lines: seq<string>, line: string)
    requires Shaped(lines) && line in Split(TemplateBlock(TemplateIndent, lines), '\n') && HasText(line)
    ensures IsPrefix(TemplateIndent, Indent(line))
  {
    SplitBlock(TemplateIndent, lines);
    var i :| 0 <= i < |lines| && Reindented(TemplateIndent, lines)[i] == line;
    ReindentedLine(TemplateIndent, lines, i);
  }

  lemma TextLineOfQuestion(question: string, line: string)
    requires '\n' !in question && line in Split(TemplateIndent + question, '\n')
    ensures IsPrefix(TemplateIndent, Indent(line))
  {
    PadFacts(TemplateIndent);
    SplitNoSeparator(TemplateIndent + question, '\n');
    IndentOfIndented(TemplateIndent, question);
  }

  lemma NoTextInBlankParts(line: string)
    requires line in Split("", '\n') || line in Split(TemplateIndent, '\n')
    ensures !HasText(line)
  {
    SplitNoSeparator(TemplateIndent, '\n');
    assert Split("", '\n') == [""];
  }

  lemma TextLineOfTemplate(role: seq<string>, mid: seq<string>, out: seq<string>,
                           question: string, line: string)
    requires Shaped(role) && Shaped(mid) && Shaped(out) && '\n' !in question
    requires line in Split(Join("\n", TemplatePartsOf(role, mid, out, question, "")), '\n') && HasText(line)
    ensures IsPrefix(TemplateIndent, Indent(line))
  {
    var parts := TemplatePartsOf(role, mid, out, question, "");
    SplitOfJoin(parts, '\n');
    FlattenMemberInverse(SplitAll(parts, '\n'), line);
    var j :| 0 <= j < 7 && line in Split(parts[j], '\n');
    if j == 1 {
      TextLineOfBlock(role, line);
    } else if j == 3 {
      TextLineOfBlock(mid, line);
    } else if j == 5 {
      TextLineOfBlock(out, line);
    } else if j == 2 {
      TextLineOfQuestion(question, line);
    } else {
      assert parts[j] == "" || parts[j] == TemplateIndent;
      NoTextInBlankParts(line);
    }
  }

  lemma MarginFullOf(role: seq<string>, mid: seq<string>, out: seq<string>, question: string)
    requires Shaped(role) && Opens(role) && Shaped(mid) && Shaped(out) && '\n' !in question
    ensures MarginText(Split(Join("\n", TemplatePartsOf(role, mid, out, question, "")), '\n')) == TemplateIndent
  {
    var parts := TemplatePartsOf(role, mid, out, question, "");
    var lines := Split(Join("\n", parts), '\n');
    MarginWithinIndent(role, mid, out, question, "");
    var first := TemplateIndent + role[0];
    SplitBlock(TemplateIndent, role);
    ReindentedLine(TemplateIndent, role, 0);
    MemberOfTemplateLines(parts, 1, first);
    forall line | line in lines && HasText(line) ensures IsPrefix(TemplateIndent, Indent(line)) {
      TextLineOfTemplate(role, mid, out, question, line);
    }
    MarginIsGreatestMember(lines, TemplateIndent);
  }

  lemma DedentIndentedLine(question: string)
    requires '\n' !in question
    ensures DedentPart(TemplateIndent, TemplateIndent + question) == if HasText(question) then question else ""
  {
    PadFacts(TemplateIndent);
    SplitNoSeparator(TemplateIndent + question, '\n');
    IndentOfIndented(TemplateIndent, question);
    assert (TemplateIndent + question)[4..] == question;
    assert DedentWith(TemplateIndent, [TemplateIndent + question]) == [if HasText(question) then question else ""];
  }

  lemma PromptWithoutContextOf(role: seq<string>, mid: seq<string>, out: seq<string>, question: string)
    requires Shaped(role) && Opens(role) && Shaped(mid) && Shaped(out) && Closes(out) && '\n' !in question
    ensures PromptOf(role, mid, out, question, "")
      == Join("\n", LayoutPartsOf("", role, mid, out, if HasText(question) then question else "", ""))
  {
    MarginFullOf(role, mid, out, question);
    PromptLayoutOf(role, mid, out, question, "");
    assert TemplateIndent[4..] == "";
    DedentIndentedLine(question);
    DedentBlankParts(TemplateIndent);
    assert TemplateIndent + "" == TemplateIndent;
  }

  /**
    With no chunk retrieved and a one-line question, `dedent` removes the full
    four spaces: the prompt is the template's lines flush left, the question
    as given (or an empty line if it is blank), and an empty line where the
    context would be.
   */
  lemma PromptWithoutContext(question: string)
    requires '\n' !in question
    ensures BuildPrompt(question, []) == Layout("", if HasText(question) then question else "", "")
  {
    TemplateLinesShaped();
    PromptIsPromptOf(question, []);
    assert ContextString([]) == "";
    PromptWithoutContextOf(RoleLines, ChunksLines, OutputLines, question);
  }
}
