/**
  The KPI catalog: a fixed list of key performance indicators built once, a
  record-to-dictionary renderer for display, and a lookup that returns the
  whole catalog or the entries of one category in catalog order.
 */
module Kpis {
  import opened Wrappers
  import opened Text

  /** The closed set of categories, `"financial" | "esg" | "other"`. */
  datatype Category = Financial | Esg | Other

  function CategoryName(c: Category): string
  {
    match c
    case Financial => "financial"
    case Esg => "esg"
    case Other => "other"
  }

  /** Reads a category literal back; any other string is not a category. */
  function CategoryOf(s: string): (r: Option<Category>)
    ensures r.Some? ==> CategoryName(r.value) == s
  {
    if s == "financial" then Some(Financial)
    else if s == "esg" then Some(Esg)
    else if s == "other" then Some(Other)
    else None
  }

  lemma CategoryRoundTrip(c: Category)
    ensures CategoryOf(CategoryName(c)) == Some(c)
  {
  }

  /**
    One indicator.  The value is absent or an integer (every catalog value is
    one), and the notes default to the empty string.
   */
  datatype Kpi = Kpi(name: string, category: Category, value: Option<int>, unit: string, year: int,
                     description: string, source: string, chunkIds: seq<int>, notes: string := "")

  // ---------------------------------------------------------------------
  // Rendering a record as a dictionary
  // ---------------------------------------------------------------------

  /** The value kinds a rendered record can hold. */
  datatype Field = Str(s: string) | Int(i: int) | Null | Ints(xs: seq<int>)

  const FieldNames: set<string> :=
    {"name", "category", "value", "unit", "year", "description", "source", "chunk_ids", "notes"}

  function ValueField(v: Option<int>): Field
  {
    match v
    case None => Null
    case Some(n) => Int(n)
  }

  /** The field-by-field copy of a record, one key per field, the id list as a list. */
  function AsDict(k: Kpi): map<string, Field>
  {
    map["name" := Str(k.name), "category" := Str(CategoryName(k.category)), "value" := ValueField(k.value),
        "unit" := Str(k.unit), "year" := Int(k.year), "description" := Str(k.description),
        "source" := Str(k.source), "chunk_ids" := Ints(k.chunkIds), "notes" := Str(k.notes)]
  }

  /** The decimal numeral of every id, in order. */
  function Decimals(ids: seq<int>): (r: seq<string>)
    ensures |r| == |ids|
    ensures forall i :: 0 <= i < |ids| ==> r[i] == IntToDecimal(ids[i])
  {
    seq(|ids|, i requires 0 <= i < |ids| => IntToDecimal(ids[i]))
  }

  /** The id list as display text: the decimals joined with `", "`. */
  function IdsText(ids: seq<int>): string
  {
    Join(", ", Decimals(ids))
  }

  /**
    `to_dict`: the field copy with `chunk_ids` replaced by its display text;
    the keys are the record's fields, and every other entry is the plain copy.
   */
  function ToDict(k: Kpi): (d: map<string, Field>)
    ensures d.Keys == FieldNames
    ensures d["chunk_ids"] == Str(IdsText(k.chunkIds))
    ensures forall f :: f in FieldNames && f != "chunk_ids" ==> d[f] == AsDict(k)[f]
  {
    AsDict(k)["chunk_ids" := Str(IdsText(k.chunkIds))]
  }

  /** Every decimal after the first, with the space the `", "` separator leaves on it. */
  function Spaced(xs: seq<string>): (r: seq<string>)
    ensures |r| == |xs|
    ensures forall i :: 0 <= i < |xs| ==> r[i] == " " + xs[i]
  {
    seq(|xs|, i requires 0 <= i < |xs| => " " + xs[i])
  }

  /** Reads display text back into the id list: split at commas, one space after each. */
  function ParseIds(s: string): Option<seq<int>>
  {
    if s == "" then Some([])
    else
      var pieces := Split(s, ',');
      match (ParseDecimal(pieces[0]), ParseSpaced(pieces[1..]))
      case (Some(first), Some(rest)) => Some([first] + rest)
      case _ => None
  }

  function ParseSpaced(pieces: seq<string>): Option<seq<int>>
  {
    if pieces == [] then Some([])
    else
      match (Unspace(pieces[0]), ParseSpaced(pieces[1..]))
      case (Some(n), Some(rest)) => Some([n] + rest)
      case _ => None
  }

  function Unspace(p: string): Option<int>
  {
    if |p| > 0 && p[0] == ' ' then ParseDecimal(p[1..]) else None
  }

  /** Joining with `", "` is joining with a comma after putting a space before every later part. */
  lemma JoinWiden(xs: seq<string>)
    requires |xs| >= 1
    ensures Join(", ", xs) == Join([','], [xs[0]] + Spaced(xs[1..]))
  {
    if |xs| >= 2 {
      var parts, j := [xs[0]] + Spaced(xs[1..]), Join(", ", xs[1..]);
      JoinSpaced(xs[1..]);
      assert parts[1..] == Spaced(xs[1..]);
      assert Join([','], parts) == xs[0] + [','] + (" " + j);
      CommaSpace(xs[0], j);
    }
  }

  lemma CommaSpace(a: string, b: string)
    ensures a + [','] + (" " + b) == a + ", " + b
  {
    assert ", " == [','] + " ";
  }

  lemma {:induction false} JoinSpaced(ys: seq<string>)
    requires |ys| >= 1
    ensures Join([','], Spaced(ys)) == " " + Join(", ", ys)
  {
    if |ys| >= 2 {
      var j := Join(", ", ys[1..]);
      JoinSpaced(ys[1..]);
      assert Spaced(ys)[1..] == Spaced(ys[1..]);
      assert Join([','], Spaced(ys)) == " " + ys[0] + [','] + (" " + j);
      CommaSpace(" " + ys[0], j);
    }
  }

  lemma {:induction false} ParseSpacedDecimals(ids: seq<int>)
    ensures ParseSpaced(Spaced(Decimals(ids))) == Some(ids)
  {
    if ids != [] {
      var pieces := Spaced(Decimals(ids));
      assert pieces[1..] == Spaced(Decimals(ids[1..]));
      ParseSpacedDecimals(ids[1..]);
      DecimalRoundTrip(ids[0]);
      assert pieces[0][1..] == IntToDecimal(ids[0]);
      assert [ids[0]] + ids[1..] == ids;
    }
  }

  /** The display text of an id list determines the list: parsing it gives the ids back. */
  lemma IdsRoundTrip(ids: seq<int>)
    ensures ParseIds(IdsText(ids)) == Some(ids)
  {
    if ids != [] {
      IdsPieces(ids);
      DecimalRoundTrip(ids[0]);
      ParseSpacedDecimals(ids[1..]);
      ParseIdsOf(IdsText(ids), IntToDecimal(ids[0]), Spaced(Decimals(ids[1..])), ids[0], ids[1..]);
      assert [ids[0]] + ids[1..] == ids;
    }
  }

  /** The display text of a non-empty list splits at its commas into the first decimal and the spaced rest. */
  lemma IdsPieces(ids: seq<int>)
    requires ids != []
    ensures IdsText(ids) != ""
    ensures Split(IdsText(ids), ',') == [IntToDecimal(ids[0])] + Spaced(Decimals(ids[1..]))
  {
    var ds := Decimals(ids);
    var parts := [ds[0]] + Spaced(ds[1..]);
    assert ds[1..] == Decimals(ids[1..]);
    assert IdsText(ids) == Join([','], parts) by { JoinWiden(ds); }
    assert Split(IdsText(ids), ',') == parts by { CommaFree(ids, parts); SplitJoin(parts, ','); }
    assert IdsText(ids) != "" by { DecimalRoundTrip(ids[0]); JoinKeepsFirst(", ", ds); }
  }

  lemma CommaFree(ids: seq<int>, parts: seq<string>)
    requires |ids| >= 1
    requires parts == [Decimals(ids)[0]] + Spaced(Decimals(ids)[1..])
    ensures forall i :: 0 <= i < |parts| ==> ',' !in parts[i]
  {
    forall i | 0 <= i < |parts|
      ensures ',' !in parts[i]
    {
      NoCommaInDecimal(ids[i]);
    }
  }

  lemma ParseIdsOf(s: string, first: string, rest: seq<string>, n: int, ns: seq<int>)
    requires s != "" && Split(s, ',') == [first] + rest
    requires ParseDecimal(first) == Some(n) && ParseSpaced(rest) == Some(ns)
    ensures ParseIds(s) == Some([n] + ns)
  {
    assert Split(s, ',')[1..] == rest;
  }

  function TextField(f: Field): Option<string>
  {
    if f.Str? then Some(f.s) else None
  }

  function ValueOf(f: Field): Option<Option<int>>
  {
    match f
    case Null => Some(None)
    case Int(n) => Some(Some(n))
    case _ => None
  }

  /** Reads a rendered record back; a missing key or a mistyped entry is an error. */
  function FromDict(d: map<string, Field>): Option<Kpi>
  {
    if !(FieldNames <= d.Keys) then None
    else
      var name, cat, value, unit := TextField(d["name"]), TextField(d["category"]), ValueOf(d["value"]), TextField(d["unit"]);
      var description, source, ids, notes := TextField(d["description"]), TextField(d["source"]), TextField(d["chunk_ids"]), TextField(d["notes"]);
      if name.Some? && cat.Some? && value.Some? && unit.Some? && d["year"].Int? && description.Some?
         && source.Some? && ids.Some? && notes.Some?
      then
        match (CategoryOf(cat.value), ParseIds(ids.value))
        case (Some(category), Some(chunkIds)) =>
          Some(Kpi(name.value, category, value.value, unit.value, d["year"].i, description.value, source.value,
                   chunkIds, notes.value))
        case _ => None
      else None
  }

  /** The rendering keeps every field of the record, the id list included. */
  lemma ToDictRoundTrip(k: Kpi)
    ensures FromDict(ToDict(k)) == Some(k)
  {
    var d, a := ToDict(k), AsDict(k);
    assert d.Keys == FieldNames;
    assert d["name"] == Str(k.name) && d["unit"] == Str(k.unit) by { assert a["name"] == Str(k.name) && a["unit"] == Str(k.unit); }
    assert d["category"] == Str(CategoryName(k.category)) by { assert a["category"] == Str(CategoryName(k.category)); }
    assert d["value"] == ValueField(k.value) && d["year"] == Int(k.year) by { assert a["value"] == ValueField(k.value) && a["year"] == Int(k.year); }
    assert d["description"] == Str(k.description) by { assert a["description"] == Str(k.description); }
    assert d["source"] == Str(k.source) && d["notes"] == Str(k.notes) by { assert a["source"] == Str(k.source) && a["notes"] == Str(k.notes); }
    assert ValueOf(d["value"]) == Some(k.value);
    IdsRoundTrip(k.chunkIds);
    CategoryRoundTrip(k.category);
    FromDictOf(d, k, IdsText(k.chunkIds));
  }

  lemma FromDictOf(d: map<string, Field>, k: Kpi, ids: string)
    requires FieldNames <= d.Keys
    requires d["name"] == Str(k.name) && d["category"] == Str(CategoryName(k.category))
    requires ValueOf(d["value"]) == Some(k.value) && d["unit"] == Str(k.unit) && d["year"] == Int(k.year)
    requires d["description"] == Str(k.description) && d["source"] == Str(k.source)
    requires d["chunk_ids"] == Str(ids) && d["notes"] == Str(k.notes)
    requires CategoryOf(CategoryName(k.category)) == Some(k.category) && ParseIds(ids) == Some(k.chunkIds)
    ensures FromDict(d) == Some(k)
  {
  }

  /** A record with the single id 0 renders it as `"0"`. */
  lemma SingleIdText(k: Kpi)
    requires k.chunkIds == [0]
    ensures ToDict(k)["chunk_ids"] == Str("0")
  {
    assert Decimals([0]) == ["0"];
  }

  // ---------------------------------------------------------------------
  // The catalog
  // ---------------------------------------------------------------------

  const Euro: string := "\U{20AC} bn"
  const FinancialSource: string := "factset_financials_clean.txt"
  const EsgSource: string := "factset_esg_clean.txt"

  const Revenue: Kpi := Kpi("Revenue", Financial, None, Euro, 2024, "Total revenue for FY24.",
                            FinancialSource, [0], "Replace value and chunk_ids with actual data.")
  const Ebitda: Kpi := Kpi("EBITDA", Financial, None, Euro, 2024, "EBITDA for FY24.", FinancialSource, [0])
  const TotalGhg: Kpi :=
    Kpi("Total GHG emissions (Scope 1+2+3)", Esg, Some(4119954), "tCO2e", 2024,
        "Total greenhouse gas emissions for FY24 across Scope 1, 2 and 3.", EsgSource, [0],
        "Sum of Scope 1 (116,092), Scope 2 (475,555) and Scope 3 (3,528,307) tCO2e.")
  const Scope1: Kpi :=
    Kpi("Scope 1 emissions", Esg, Some(116092), "tCO2e", 2024,
        "Direct Scope 1 emissions from owned or controlled sources.", EsgSource, [0],
        "Intensity: 0.9499 tCO2e per EUR million EVIC.")
  const Scope2: Kpi :=
    Kpi("Scope 2 emissions (market-based)", Esg, Some(475555), "tCO2e", 2024,
        "Scope 2 emissions from purchased energy (market-based).", EsgSource, [0],
        "Intensity: 3.8909 tCO2e per EUR million EVIC.")
  const Scope3: Kpi :=
    Kpi("Scope 3 emissions", Esg, Some(3528307), "tCO2e", 2024,
        "Scope 3 value-chain emissions (indirect).", EsgSource, [0],
        "Intensity: 28.8683 tCO2e per EUR million EVIC.")

  /** The catalog as computed once at load time. */
  function Catalog(): (r: seq<Kpi>)
    ensures |r| == 6
    ensures forall i, j :: 0 <= i < j < |r| ==> r[i].name != r[j].name
  {
    [Revenue, Ebitda, TotalGhg, Scope1, Scope2, Scope3]
  }

  /** `_build_kpis`: the entries appended one by one to a fresh list. */
  method BuildKpis() returns (kpis: seq<Kpi>)
    ensures kpis == Catalog()
  {
    kpis := [];
    kpis := kpis + [Revenue];
    kpis := kpis + [Ebitda];
    kpis := kpis + [TotalGhg];
    kpis := kpis + [Scope1];
    kpis := kpis + [Scope2];
    kpis := kpis + [Scope3];
  }

  function Names(ks: seq<Kpi>): (r: seq<string>)
    ensures |r| == |ks|
    ensures forall i :: 0 <= i < |ks| ==> r[i] == ks[i].name
  {
    seq(|ks|, i requires 0 <= i < |ks| => ks[i].name)
  }

  /** Six entries: the two financial ones without a value, then the four emission figures. */
  lemma CatalogContents()
    ensures Names(Catalog()) == ["Revenue", "EBITDA", "Total GHG emissions (Scope 1+2+3)", "Scope 1 emissions",
                                 "Scope 2 emissions (market-based)", "Scope 3 emissions"]
    ensures forall i :: 0 <= i < 2 ==> Catalog()[i].category == Financial && Catalog()[i].value == None
    ensures forall i :: 2 <= i < 6 ==> Catalog()[i].category == Esg && Catalog()[i].value.Some?
    ensures forall k :: k in Catalog() ==> k.year == 2024 && k.chunkIds == [0]
  {
  }

  /** The total's note is right: the three scopes add up to it. */
  lemma GhgTotalIsSum()
    ensures TotalGhg.value == Some(Scope1.value.value + Scope2.value.value + Scope3.value.value)
  {
  }

  // ---------------------------------------------------------------------
  // Lookup by category
  // ---------------------------------------------------------------------

  /** The entries of category `c`, in their order in `ks`. */
  function Filter(ks: seq<Kpi>, c: Category): (r: seq<Kpi>)
    ensures |r| <= |ks|
    ensures forall i :: 0 <= i < |r| ==> r[i].category == c
  {
    if ks == [] then []
    else (if ks[0].category == c then [ks[0]] else []) + Filter(ks[1..], c)
  }

  /** `get_kpis`: the whole catalog, or the entries of the given category. */
  function GetKpis(category: Option<Category> := None): (r: seq<Kpi>)
    ensures |r| <= |Catalog()|
    ensures category.Some? ==> forall i :: 0 <= i < |r| ==> r[i].category == category.value
  {
    match category
    case None => Catalog()
    case Some(c) => Filter(Catalog(), c)
  }

  /** `xs` is `ys` with some entries left out and the rest in the same order. */
  predicate IsSubsequence(xs: seq<Kpi>, ys: seq<Kpi>)
    decreases |ys|
  {
    if xs == [] then true
    else if ys == [] then false
    else (xs[0] == ys[0] && IsSubsequence(xs[1..], ys[1..])) || IsSubsequence(xs, ys[1..])
  }

  lemma {:induction false} FilterMembers(ks: seq<Kpi>, c: Category)
    ensures forall k :: k in Filter(ks, c) <==> k in ks && k.category == c
  {
    if ks != [] {
      FilterMembers(ks[1..], c);
      assert ks == [ks[0]] + ks[1..];
    }
  }

  lemma {:induction false} FilterOrder(ks: seq<Kpi>, c: Category)
    ensures IsSubsequence(Filter(ks, c), ks)
  {
    if ks != [] {
      var xs, rest := Filter(ks, c), Filter(ks[1..], c);
      FilterOrder(ks[1..], c);
      if ks[0].category == c {
        assert xs == [ks[0]] + rest;
        assert xs[0] == ks[0] && xs[1..] == rest;
      } else {
        assert xs == rest;
      }
    }
  }

  /** Filtering a concatenation filters each half. */
  lemma {:induction false} FilterConcat(xs: seq<Kpi>, ys: seq<Kpi>, c: Category)
    ensures Filter(xs + ys, c) == Filter(xs, c) + Filter(ys, c)
  {
    if xs != [] {
      var head := if xs[0].category == c then [xs[0]] else [];
      assert (xs + ys)[1..] == xs[1..] + ys;
      FilterConcat(xs[1..], ys, c);
      assert Filter(xs + ys, c) == head + Filter(xs[1..] + ys, c);
      assert Filter(xs, c) == head + Filter(xs[1..], c);
    } else {
      assert xs + ys == ys;
    }
  }

  lemma {:induction false} FilterAll(ks: seq<Kpi>, c: Category)
    requires forall i :: 0 <= i < |ks| ==> ks[i].category == c
    ensures Filter(ks, c) == ks
  {
    if ks != [] {
      FilterAll(ks[1..], c);
    }
  }

  lemma {:induction false} FilterNone(ks: seq<Kpi>, c: Category)
    requires forall i :: 0 <= i < |ks| ==> ks[i].category != c
    ensures Filter(ks, c) == []
  {
    if ks != [] {
      FilterNone(ks[1..], c);
    }
  }

  /** One step of the filter, counted. */
  lemma FilterStep(ks: seq<Kpi>, c: Category)
    requires ks != []
    ensures multiset(Filter(ks, c)) == (if ks[0].category == c then multiset{ks[0]} else multiset{}) + multiset(Filter(ks[1..], c))
  {
    assert Filter(ks, c) == (if ks[0].category == c then [ks[0]] else []) + Filter(ks[1..], c);
  }

  /** The three category results split `ks`: every entry lands in exactly one of them. */
  lemma {:induction false} FilterPartition(ks: seq<Kpi>)
    ensures multiset(Filter(ks, Financial)) + multiset(Filter(ks, Esg)) + multiset(Filter(ks, Other)) == multiset(ks)
  {
    if ks != [] {
      var k, rest := ks[0], ks[1..];
      FilterPartition(rest);
      assert ks == [k] + rest;
      assert multiset(ks) == multiset{k} + multiset(rest);
      FilterStep(ks, Financial);
      FilterStep(ks, Esg);
      FilterStep(ks, Other);
      GainOne(multiset(Filter(rest, Financial)), multiset(Filter(rest, Esg)), multiset(Filter(rest, Other)),
              multiset(Filter(ks, Financial)), multiset(Filter(ks, Esg)), multiset(Filter(ks, Other)),
              k.category == Financial, k.category == Esg, k.category == Other, multiset{k});
    }
  }

  lemma GainOne<T>(a: multiset<T>, b: multiset<T>, c: multiset<T>, a': multiset<T>, b': multiset<T>, c': multiset<T>,
                   inA: bool, inB: bool, inC: bool, x: multiset<T>)
    requires (inA && !inB && !inC) || (!inA && inB && !inC) || (!inA && !inB && inC)
    requires a' == (if inA then x else multiset{}) + a
    requires b' == (if inB then x else multiset{}) + b
    requires c' == (if inC then x else multiset{}) + c
    ensures a' + b' + c' == x + (a + b + c)
  {
  }

  /** Hence the three results together are exactly as long as `ks`. */
  lemma FilterSizes(ks: seq<Kpi>)
    ensures |Filter(ks, Financial)| + |Filter(ks, Esg)| + |Filter(ks, Other)| == |ks|
  {
    FilterPartition(ks);
    assert |multiset(ks)| == |ks|;
  }

  /**
    What `get_kpis` returns: the entries of the catalog that match the
    category (all of them without one), in catalog order.
   */
  lemma GetKpisSpec(category: Option<Category>)
    ensures forall k :: k in GetKpis(category) <==> k in Catalog() && (category.None? || k.category == category.value)
    ensures IsSubsequence(GetKpis(category), Catalog())
    ensures |GetKpis(category)| <= |Catalog()|
  {
    match category
    case None =>
      SubsequenceRefl(Catalog());
    case Some(c) =>
      FilterMembers(Catalog(), c);
      FilterOrder(Catalog(), c);
  }

  lemma {:induction false} SubsequenceRefl(ks: seq<Kpi>)
    ensures IsSubsequence(ks, ks)
  {
    if ks != [] {
      SubsequenceRefl(ks[1..]);
    }
  }

  /** Each catalog entry is in the result for its own category and in no other. */
  lemma OneCategoryEach(k: Kpi, c: Category)
    requires k in Catalog()
    ensures k in GetKpis(Some(c)) <==> c == k.category
  {
    FilterMembers(Catalog(), c);
  }

  lemma SixParts(a: Kpi, b: Kpi, c: Kpi, d: Kpi, e: Kpi, f: Kpi)
    ensures [a, b, c, d, e, f] == [a, b] + [c, d, e, f]
  {
  }

  /** A block of category `c` followed by a block without it filters to the first block. */
  lemma FilterFirstBlock(xs: seq<Kpi>, ys: seq<Kpi>, c: Category)
    requires forall i :: 0 <= i < |xs| ==> xs[i].category == c
    requires forall i :: 0 <= i < |ys| ==> ys[i].category != c
    ensures Filter(xs + ys, c) == xs
  {
    FilterConcat(xs, ys, c);
    FilterAll(xs, c);
    FilterNone(ys, c);
    assert xs + [] == xs;
  }

  /** A block without category `c` followed by a block of it filters to the second block. */
  lemma FilterSecondBlock(xs: seq<Kpi>, ys: seq<Kpi>, c: Category)
    requires forall i :: 0 <= i < |xs| ==> xs[i].category != c
    requires forall i :: 0 <= i < |ys| ==> ys[i].category == c
    ensures Filter(xs + ys, c) == ys
  {
    FilterConcat(xs, ys, c);
    FilterNone(xs, c);
    FilterAll(ys, c);
    assert [] + ys == ys;
  }

  /** The financial lookup gives Revenue and EBITDA. */
  lemma FinancialEntries()
    ensures GetKpis(Some(Financial)) == [Revenue, Ebitda]
  {
    SixParts(Revenue, Ebitda, TotalGhg, Scope1, Scope2, Scope3);
    FilterFirstBlock([Revenue, Ebitda], [TotalGhg, Scope1, Scope2, Scope3], Financial);
  }

  /** The ESG lookup gives the four emission figures. */
  lemma EsgEntries()
    ensures GetKpis(Some(Esg)) == [TotalGhg, Scope1, Scope2, Scope3]
  {
    SixParts(Revenue, Ebitda, TotalGhg, Scope1, Scope2, Scope3);
    FilterSecondBlock([Revenue, Ebitda], [TotalGhg, Scope1, Scope2, Scope3], Esg);
  }

  /** No catalog entry is in the other category. */
  lemma NoOtherEntries()
    ensures GetKpis(Some(Other)) == []
  {
    FilterNone(Catalog(), Other);
  }
}
