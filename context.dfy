/**
  The context serializer of the question-answering pipeline: retrieved chunk
  rows become one text block each (a metadata header line, a newline, the raw
  text), and the blocks are joined with a blank line.
 */
module Context {
  import opened Wrappers
  import opened Text

  /** One retrieved row: `chunk_id`, `source`, `doc_type`, `year` and `text`. */
  datatype Chunk = Chunk(chunkId: int, source: string, docType: string, year: int, text: string)

  /** The metadata a header line carries. */
  datatype Meta = Meta(chunkId: int, source: string, docType: string, year: int)

  function MetaOf(c: Chunk): Meta
  {
    Meta(c.chunkId, c.source, c.docType, c.year)
  }

  /** `[chunk_id=…, source=…, doc_type=…, year=…]`, with the integers in decimal. */
  function Header(c: Chunk): (r: string)
    ensures r != "" && r[0] == '[' && r[|r| - 1] == ']'
  {
    "[chunk_id=" + IntToDecimal(c.chunkId) + ", source=" + c.source
    + ", doc_type=" + c.docType + ", year=" + IntToDecimal(c.year) + "]"
  }

  function Block(c: Chunk): string
  {
    Header(c) + "\n" + c.text
  }

  function Blocks(chunks: seq<Chunk>): (r: seq<string>)
    ensures |r| == |chunks|
    ensures forall i :: 0 <= i < |chunks| ==> r[i] == Block(chunks[i])
  {
    seq(|chunks|, i requires 0 <= i < |chunks| => Block(chunks[i]))
  }

  /** The serialized context; it is empty exactly when no chunk was retrieved. */
  function ContextString(chunks: seq<Chunk>): (r: string)
    ensures r == "" <==> chunks == []
  {
    if chunks == [] then Join("\n\n", [])
    else
      JoinKeepsFirst("\n\n", Blocks(chunks));
      Join("\n\n", Blocks(chunks))
  }

  /** `build_context_string`: a loop collecting one block per row, then the join. */
  method BuildContextString(chunks: seq<Chunk>) returns (context: string)
    ensures context == ContextString(chunks)
  {
    var blocks: seq<string> := [];
    for i := 0 to |chunks|
      invariant blocks == Blocks(chunks[..i])
    {
      var row := chunks[i];
      var header := Header(row);
      var text := row.text;
      BlocksAppend(chunks, i);
      blocks := blocks + [header + "\n" + text];
    }
    assert chunks[..|chunks|] == chunks;
    context := Join("\n\n", blocks);
  }

  lemma BlocksAppend(chunks: seq<Chunk>, i: nat)
    requires i < |chunks|
    ensures Blocks(chunks[..i + 1]) == Blocks(chunks[..i]) + [Header(chunks[i]) + "\n" + chunks[i].text]
  {
    assert chunks[..i + 1][i] == chunks[i];
  }

  /** Where the block of chunk `i` starts: the earlier blocks, each followed by `\n\n`. */
  function Offset(chunks: seq<Chunk>, i: nat): nat
    requires i <= |chunks|
  {
    PartOffset("\n\n", Blocks(chunks), i)
  }

  /**
    The context is the blocks in retrieval order: block `i` sits at
    `Offset(chunks, i)`, is followed by the `\n\n` separator unless it is the
    last one, and the string ends right after the last block.  Nothing is
    reordered, dropped or merged.
   */
  lemma ContextBlockAt(chunks: seq<Chunk>, i: nat)
    requires i < |chunks|
    ensures OccursAt(Block(chunks[i]), ContextString(chunks), Offset(chunks, i))
    ensures i + 1 < |chunks| ==> OccursAt("\n\n", ContextString(chunks), Offset(chunks, i) + |Block(chunks[i])|)
    ensures i + 1 == |chunks| ==> |ContextString(chunks)| == Offset(chunks, i) + |Block(chunks[i])|
  {
    JoinPartAt("\n\n", Blocks(chunks), i);
  }

  /**
    Chunk `c` is laid out in `s` from index `o` on: its header line there, its
    id right after the `[chunk_id=` tag, and its raw text after the header's
    newline.
   */
  predicate PlacedAt(c: Chunk, s: string, o: int)
  {
    OccursAt(Header(c), s, o)
    && OccursAt(IntToDecimal(c.chunkId), s, o + 10)
    && OccursAt(c.text, s, o + (|Header(c)| + 1))
  }

  /** Every retrieved chunk's header (with its id) and its text appear in the context. */
  lemma ChunkInContext(chunks: seq<Chunk>, i: nat)
    requires i < |chunks|
    ensures PlacedAt(chunks[i], ContextString(chunks), Offset(chunks, i))
  {
    ContextBlockAt(chunks, i);
    BlockPlaced(chunks[i], ContextString(chunks), Offset(chunks, i));
  }

  /** Wherever a block occurs, its chunk is laid out there. */
  lemma BlockPlaced(c: Chunk, s: string, o: int)
    requires OccursAt(Block(c), s, o)
    ensures PlacedAt(c, s, o)
  {
    BlockParts(c);
    OccursWithin(Header(c), Block(c), s, 0, o);
    OccursWithin(IntToDecimal(c.chunkId), Block(c), s, 10, o);
    OccursWithin(c.text, Block(c), s, |Header(c)| + 1, o);
  }

  /** Any text containing the context contains every chunk's header, id and text. */
  lemma ChunkInText(chunks: seq<Chunk>, i: nat, p: string)
    requires i < |chunks| && Contains(p, ContextString(chunks))
    ensures Contains(p, Header(chunks[i]))
    ensures Contains(p, IntToDecimal(chunks[i].chunkId))
    ensures Contains(p, chunks[i].text)
  {
    var c, b, s := chunks[i], Block(chunks[i]), ContextString(chunks);
    assert Contains(s, b) by { ContextBlockAt(chunks, i); }
    ContainsTransitive(b, s, p);
    BlockContains(c);
    ContainsTransitive(Header(c), b, p);
    ContainsTransitive(IntToDecimal(c.chunkId), b, p);
    ContainsTransitive(c.text, b, p);
  }

  lemma BlockContains(c: Chunk)
    ensures Contains(Block(c), Header(c))
    ensures Contains(Block(c), IntToDecimal(c.chunkId))
    ensures Contains(Block(c), c.text)
  {
    BlockParts(c);
  }

  lemma BlockParts(c: Chunk)
    ensures OccursAt(Header(c), Block(c), 0)
    ensures OccursAt(c.text, Block(c), |Header(c)| + 1)
    ensures OccursAt(IntToDecimal(c.chunkId), Block(c), 10)
  {
    HeaderText(IntToDecimal(c.chunkId), c.source, c.docType, IntToDecimal(c.year));
    assert HeaderFields(c)[0] == IntToDecimal(c.chunkId);
    JoinKeepsFirst([','], HeaderFields(c));
    BlockPiecesOf("[chunk_id=", Join([','], HeaderFields(c)), "]", IntToDecimal(c.chunkId), c.text);
  }

  lemma BlockPiecesOf(p: string, j: string, q: string, id: string, t: string)
    requires IsPrefix(id, j)
    ensures OccursAt(p + j + q, p + j + q + "\n" + t, 0)
    ensures OccursAt(t, p + j + q + "\n" + t, |p + j + q| + 1)
    ensures OccursAt(id, p + j + q + "\n" + t, |p|)
  {
    var h := p + j + q;
    var b := h + "\n" + t;
    assert b[..|h|] == h;
    assert b[|h| + 1..] == t;
    assert b[|p|..|p| + |id|] == j[..|id|];
  }

  // ---------------------------------------------------------------------
  // Header lines
  // ---------------------------------------------------------------------

  /** `h` occurs at `o` in `s` with a newline right after it, and one right before it unless `o` is 0. */
  predicate LineStartsAt(h: string, s: string, o: int)
  {
    OccursAt(h, s, o) && o + |h| < |s| && s[o + |h|] == '\n' && (o > 0 ==> s[o - 1] == '\n')
  }

  /**
    The header of chunk `i` fills a line of the context of its own: the
    newline before its text follows it, and the blank line separating it from
    the previous block precedes it; only the first header starts the string.
   */
  lemma HeaderOnLine(chunks: seq<Chunk>, i: nat)
    requires i < |chunks|
    ensures LineStartsAt(Header(chunks[i]), ContextString(chunks), Offset(chunks, i))
    ensures Offset(chunks, i) == 0 <==> i == 0
  {
    ContextBlockAt(chunks, i);
    HeaderEndsLine(chunks[i], ContextString(chunks), Offset(chunks, i));
    if i > 0 {
      BlankLineBefore(chunks, i);
    }
  }

  lemma HeaderEndsLine(c: Chunk, s: string, o: int)
    requires OccursAt(Block(c), s, o)
    ensures OccursAt(Header(c), s, o) && o + |Header(c)| < |s| && s[o + |Header(c)|] == '\n'
  {
    BlockParts(c);
    OccursWithin(Header(c), Block(c), s, 0, o);
    assert Block(c)[|Header(c)|] == '\n';
    assert s[o + |Header(c)|] == Block(c)[|Header(c)|];
  }

  lemma BlankLineBefore(chunks: seq<Chunk>, i: nat)
    requires 0 < i < |chunks|
    ensures 0 < Offset(chunks, i) <= |ContextString(chunks)|
    ensures ContextString(chunks)[Offset(chunks, i) - 1] == '\n'
  {
    SeparatorBefore("\n\n", Blocks(chunks), i);
  }

  /** A header is a single line, opening with `[`, when the source and the document type hold no newline. */
  lemma HeaderIsOneLine(c: Chunk)
    requires '\n' !in c.source && '\n' !in c.docType
    ensures '\n' !in Header(c) && Header(c) != "" && Header(c)[0] == '['
  {
    var id, year := IntToDecimal(c.chunkId), IntToDecimal(c.year);
    assert '\n' !in id && '\n' !in year;
  }

  /** The id follows the `[chunk_id=` tag of the header, so any text holding the header holds the id. */
  lemma IdInHeader(c: Chunk, p: string)
    requires Contains(p, Header(c))
    ensures Contains(p, IntToDecimal(c.chunkId))
  {
    var id := IntToDecimal(c.chunkId);
    assert Header(c)[10..10 + |id|] == id;
    assert OccursAt(id, Header(c), 10);
    ContainsTransitive(id, Header(c), p);
  }

  // ---------------------------------------------------------------------
  // Reading a header line back
  // ---------------------------------------------------------------------

  /** `s` with `p` removed from its front, if it starts with `p`. */
  function After(p: string, s: string): Option<string>
  {
    if IsPrefix(p, s) then Some(s[|p|..]) else None
  }

  /**
    Parses `[chunk_id=I, source=S, doc_type=D, year=Y]` where no field holds a
    comma; the inverse of `Header` on such chunks.
   */
  function ParseHeader(h: string): Option<Meta>
  {
    if |h| < 11 || h[..10] != "[chunk_id=" || h[|h| - 1] != ']' then None
    else
      var fields := Split(h[10..|h| - 1], ',');
      if |fields| != 4 then None
      else
        match (ParseDecimal(fields[0]), After(" source=", fields[1]), After(" doc_type=", fields[2]), ParseAfterYear(fields[3]))
        case (Some(id), Some(source), Some(docType), Some(year)) => Some(Meta(id, source, docType, year))
        case _ => None
  }

  function ParseAfterYear(field: string): Option<int>
  {
    match After(" year=", field)
    case Some(digits) => ParseDecimal(digits)
    case None => None
  }

  /** The four comma-separated fields between the brackets of a header. */
  function HeaderFields(c: Chunk): seq<string>
  {
    [IntToDecimal(c.chunkId), " source=" + c.source, " doc_type=" + c.docType, " year=" + IntToDecimal(c.year)]
  }

  lemma HeaderText(id: string, source: string, docType: string, year: string)
    ensures "[chunk_id=" + id + ", source=" + source + ", doc_type=" + docType + ", year=" + year + "]"
      == "[chunk_id=" + Join([','], [id, " source=" + source, " doc_type=" + docType, " year=" + year]) + "]"
  {
    JoinFour([','], id, " source=" + source, " doc_type=" + docType, " year=" + year);
    SeparatorLiterals();
    Regroup("[chunk_id=", id, [','], " source=", source, " doc_type=", docType, " year=", year, "]");
  }

  lemma SeparatorLiterals()
    ensures ", source=" == [','] + " source="
    ensures ", doc_type=" == [','] + " doc_type="
    ensures ", year=" == [','] + " year="
  {
  }

  lemma JoinFour(sep: string, a: string, b: string, c: string, d: string)
    ensures Join(sep, [a, b, c, d]) == a + sep + b + sep + c + sep + d
  {
    var parts := [a, b, c, d];
    assert Join(sep, parts[3..]) == d;
    assert Join(sep, parts[2..]) == c + sep + d;
    assert Join(sep, parts[1..]) == b + sep + (c + sep + d);
  }

  lemma Regroup(l0: string, id: string, c: string, m1: string, src: string, m2: string, dt: string,
                m3: string, yr: string, l4: string)
    ensures l0 + id + (c + m1) + src + (c + m2) + dt + (c + m3) + yr + l4
         == l0 + (id + c + (m1 + src) + c + (m2 + dt) + c + (m3 + yr)) + l4
  {
  }

  lemma Bracketed(pre: string, mid: string, post: string)
    ensures var h := pre + mid + post;
      h[..|pre|] == pre && h[|pre|..|h| - |post|] == mid && h[|h| - |post|..] == post
  {
  }

  lemma HeaderShape(c: Chunk)
    ensures |Header(c)| >= 11 && Header(c)[..10] == "[chunk_id=" && Header(c)[|Header(c)| - 1] == ']'
    ensures Header(c)[10..|Header(c)| - 1] == Join([','], HeaderFields(c))
  {
    HeaderText(IntToDecimal(c.chunkId), c.source, c.docType, IntToDecimal(c.year));
    Bracketed("[chunk_id=", Join([','], HeaderFields(c)), "]");
  }

  /** Header metadata survives a round trip through the header line. */
  lemma HeaderRoundTrip(c: Chunk)
    requires ',' !in c.source && ',' !in c.docType
    ensures ParseHeader(Header(c)) == Some(MetaOf(c))
  {
    var h, fields := Header(c), HeaderFields(c);
    NoCommaInDecimal(c.chunkId);
    NoCommaInDecimal(c.year);
    assert forall i :: 0 <= i < 4 ==> ',' !in fields[i];
    HeaderShape(c);
    SplitJoin(fields, ',');
    DecimalRoundTrip(c.chunkId);
    DecimalRoundTrip(c.year);
    assert After(" source=", fields[1]) == Some(c.source);
    assert After(" doc_type=", fields[2]) == Some(c.docType);
    assert After(" year=", fields[3]) == Some(IntToDecimal(c.year));
  }
}
