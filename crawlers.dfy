/**
 * The two concrete scrapers of grimmoire/scraper/crawlers/naeb.py: the
 * Native American Ethnobotany Database scraper (paged through a Datasette
 * API) and the PubChem scraper (a fixed list of compound names). Each
 * contributes the generator steps its `scrape` produces and the mapping its
 * `process_item` applies to one item.
 *
 * Network calls are abstract: a table count, a page of rows, a compound
 * search, a property lookup and a synonym lookup are given as functions;
 * whether a stop is pending when a generator checks is given as an oracle.
 */
module Crawlers {
  import opened Wrappers
  import opened Json
  import opened Progress
  import opened Store
  import opened Scraper
  import opened Sources

  /** `NAEBScraper.PAGE_SIZE`. */
  const PageSize := 100

  /** The longest ailment name taken from a use description. */
  const MaxUseName := 100

  /** `search_compounds(name, max_results=5)`. */
  const MaxCids := 5

  /** `get_compound_synonyms` keeps the first ten. */
  const MaxSynonyms := 10

  /** The compounds the PubChem scraper searches, in order. */
  const Compounds: seq<string> := [
    "curcumin", "quercetin", "resveratrol", "berberine", "ginsenoside",
    "catechin", "kaempferol", "luteolin", "apigenin", "naringenin",
    "hesperidin", "rutin", "chlorogenic acid", "caffeic acid", "ferulic acid",
    "rosmarinic acid", "ursolic acid", "oleanolic acid", "betulinic acid",
    "asiaticoside", "withanolide", "artemisinin", "thymoquinone", "allicin", "capsaicin"]

  /** Python's name for the type of a value, as error messages show it. */
  function TypeName(j: Json): string {
    match j
    case JNull => "NoneType"
    case JBool(_) => "bool"
    case JInt(_) => "int"
    case JStr(_) => "str"
    case JList(_) => "list"
    case JObj(_) => "dict"
  }

  /** The `AttributeError` of calling `.get` on a value that is not a mapping. */
  function NoGet(j: Json): string {
    "'" + TypeName(j) + "' object has no attribute 'get'"
  }

  /** The first `n` elements, or all of them: `s[:n]`. */
  function Take<T>(s: seq<T>, n: nat): (r: seq<T>)
    ensures |r| == Min(n, |s|) && r == s[..|r|]
  {
    if |s| <= n then s else s[..n]
  }

  // ---------------------------------------------------------------------
  // NAEB
  // ---------------------------------------------------------------------

  /** The item the NAEB generator yields for a row of a table. */
  function NaebItem(table: string, row: Json): Json {
    JObj(map["table" := JStr(table), "data" := row])
  }

  /** `use_description[:100]`: a string or list is cut; other values cannot be sliced. */
  function UseName(use: Json): (r: Result<Json, string>)
    ensures use.JStr? ==> r == Success(JStr(Take(use.s, MaxUseName)))
    ensures use.JList? ==> r == Success(JList(Take(use.items, MaxUseName)))
    ensures r.Success? <==> use.JStr? || use.JList?
  {
    match use
    case JStr(s) => Success(JStr(Take(s, MaxUseName)))
    case JList(xs) => Success(JList(Take(xs, MaxUseName)))
    case JObj(_) => Failure("unhashable type: 'slice'")
    case _ => Failure("'" + TypeName(use) + "' object is not subscriptable")
  }

  /** The plant a `species` row describes. */
  function SpeciesEntity(d: map<string, Json>): map<string, Json> {
    var commonName := Get(d, "common_name", JNull);
    map[
      "_type" := JStr("plant"),
      "name" := Or(commonName, Get(d, "latin_name", JStr(""))),
      "scientific_name" := Get(d, "latin_name", JNull),
      "family" := Get(d, "family", JNull),
      "common_names" := JList(if Truthy(commonName) then [commonName] else []),
      "description" := JStr("Native American medicinal plant. Family: " + PyStr(Get(d, "family", JStr("Unknown"))))]
  }

  /** The ailment a `uses` row describes, once its use is known to be truthy. */
  function UseEntity(d: map<string, Json>, name: Json): map<string, Json> {
    var use := Get(d, "use", JStr(""));
    map[
      "_type" := JStr("ailment"),
      "name" := name,
      "category" := Get(d, "category", JNull),
      "description" := JStr("Traditional use by " + PyStr(Get(d, "tribe", JStr("Native American")))
                             + " peoples: " + PyStr(use))]
  }

  /** `NAEBScraper.process_item`. */
  function NaebProcessItem(item: Json): Processed {
    if !item.JObj? then ProcessError(NoGet(item))
    else
      var table := Get(item.fields, "table", JNull);
      var data := Get(item.fields, "data", EmptyObj);
      if table == JStr("species") then
        if !data.JObj? then ProcessError(NoGet(data)) else Entity(SpeciesEntity(data.fields))
      else if table == JStr("uses") then
        if !data.JObj? then ProcessError(NoGet(data))
        else
          var use := Get(data.fields, "use", JStr(""));
          if !Truthy(use) then Skip
          else
            match UseName(use)
            case Failure(m) => ProcessError(m)
            case Success(name) => Entity(UseEntity(data.fields, name))
      else Skip
  }

  /**
   * A `species` row becomes a plant named by its common name when that is
   * truthy, else by its Latin name, else ''; its common names are the
   * common name alone when truthy, else none. Every key is a parameter of
   * `add_plant`, so saving it never meets an unexpected keyword.
   */
  lemma NaebSpecies(d: map<string, Json>)
    ensures NaebProcessItem(NaebItem("species", JObj(d))) == Entity(SpeciesEntity(d))
    ensures var e := SpeciesEntity(d);
      && Get(e, "_type", JStr("plant")) == JStr("plant")
      && e.Keys <= Params(Plants) + {"_type"}
      && ("common_name" in d && Truthy(d["common_name"]) ==>
            e["name"] == d["common_name"] && e["common_names"] == JList([d["common_name"]]))
      && (!("common_name" in d && Truthy(d["common_name"])) ==>
            e["name"] == Get(d, "latin_name", JStr("")) && e["common_names"] == JList([]))
  {
    var e := SpeciesEntity(d);
  }

  /**
   * A `uses` row with a truthy textual use becomes an ailment named by at
   * most the first 100 characters of the use; a row whose use is missing or
   * empty gives nothing. Every key is a parameter of `add_ailment`.
   */
  lemma NaebUses(d: map<string, Json>)
    ensures var use := Get(d, "use", JStr(""));
      && (!Truthy(use) ==> NaebProcessItem(NaebItem("uses", JObj(d))) == Skip)
      && (Truthy(use) && use.JStr? ==>
            var r := NaebProcessItem(NaebItem("uses", JObj(d)));
            && r.Entity?
            && r.fields["_type"] == JStr("ailment")
            && r.fields.Keys <= Params(Ailments) + {"_type"}
            && r.fields["name"].JStr? && |r.fields["name"].s| <= MaxUseName
            && r.fields["name"].s == use.s[..|r.fields["name"].s|])
  {
  }

  /** An item of any other table gives nothing. */
  lemma NaebOtherTable(table: string, row: Json)
    requires table != "species" && table != "uses"
    ensures NaebProcessItem(NaebItem(table, row)) == Skip
  {
  }

  /** The items yielded for the rows of one page, in order. */
  function RowItems(table: string, rows: seq<Json>): (r: seq<StreamEvent>)
    ensures |r| == |rows| && forall k :: 0 <= k < |r| ==> r[k] == Yield(NaebItem(table, rows[k]))
  {
    seq(|rows|, k requires 0 <= k < |rows| => Yield(NaebItem(table, rows[k])))
  }

  /**
   * The pages of a table from `offset` on, as the paging loop reads them:
   * it stops on a pending stop, an empty page or `offset >= total`, and a
   * failing request ends the generator with that failure. With `paged`,
   * the page number is written after each page, as `fetch_species` does.
   */
  function PagesFrom(table: string, offset: int, total: int, fetchPage: int -> Result<seq<Json>, string>,
                     stopAt: (string, int) -> bool, paged: bool): (r: (seq<StreamEvent>, Option<string>))
    decreases total - offset
  {
    if offset >= total || stopAt(table, offset) then ([], None)
    else
      match fetchPage(offset)
      case Failure(m) => ([], Some(m))
      case Success(rows) =>
        if rows == [] then ([], None)
        else
          var here := RowItems(table, rows)
                      + (if paged then [SetPage((offset + PageSize) / PageSize)] else []);
          var rest := PagesFrom(table, offset + PageSize, total, fetchPage, stopAt, paged);
          (here + rest.0, rest.1)
  }

  /** The page numbers `events` writes, in order. */
  function PagesWritten(events: seq<StreamEvent>): seq<int>
    decreases |events|
  {
    if events == [] then []
    else (if events[0].SetPage? then [events[0].page] else []) + PagesWritten(events[1..])
  }

  /** `s` counts up by one from `first`. */
  predicate Consecutive(s: seq<int>, first: int) {
    forall k :: 0 <= k < |s| ==> s[k] == first + k
  }

  lemma {:induction false} PagesWrittenAppend(a: seq<StreamEvent>, b: seq<StreamEvent>)
    ensures PagesWritten(a + b) == PagesWritten(a) + PagesWritten(b)
    decreases |a|
  {
    if a != [] {
      assert (a + b)[1..] == a[1..] + b;
      PagesWrittenAppend(a[1..], b);
    } else {
      assert a + b == b;
    }
  }

  lemma {:induction false} NoPagesInYields(items: seq<StreamEvent>)
    requires forall k :: 0 <= k < |items| ==> items[k].Yield?
    ensures PagesWritten(items) == []
    decreases |items|
  {
    if items != [] {
      NoPagesInYields(items[1..]);
    }
  }

  /**
   * Paging from page `p`, the page numbers written are `p + 1`, `p + 2`,
   * ... in order: `current_page` only moves forward, one page at a time.
   */
  lemma {:induction false} PagesAdvance(table: string, p: int, total: int, fetchPage: int -> Result<seq<Json>, string>, stopAt: (string, int) -> bool)
    ensures Consecutive(PagesWritten(PagesFrom(table, p * PageSize, total, fetchPage, stopAt, true).0), p + 1)
    decreases total - p * PageSize
  {
    var offset := p * PageSize;
    if !(offset >= total || stopAt(table, offset)) && fetchPage(offset).Success? && fetchPage(offset).value != [] {
      var items := RowItems(table, fetchPage(offset).value);
      var rest := PagesFrom(table, offset + PageSize, total, fetchPage, stopAt, true);
      assert offset + PageSize == (p + 1) * PageSize;
      assert (offset + PageSize) / PageSize == p + 1;
      assert PagesFrom(table, offset, total, fetchPage, stopAt, true).0 == items + [SetPage(p + 1)] + rest.0;
      PagesAdvance(table, p + 1, total, fetchPage, stopAt);
      PagesStep(items, p + 1, rest.0);
    }
  }

  /** Yields followed by a write of page `n`, then pages going on from `n + 1`, count on from `n`. */
  lemma PagesStep(items: seq<StreamEvent>, n: int, rest: seq<StreamEvent>)
    requires forall k :: 0 <= k < |items| ==> items[k].Yield?
    requires Consecutive(PagesWritten(rest), n + 1)
    ensures Consecutive(PagesWritten(items + [SetPage(n)] + rest), n)
  {
    NoPagesInYields(items);
    assert PagesWritten([SetPage(n)]) == [n] by {
      assert [SetPage(n)][1..] == [];
    }
    PagesWrittenAppend(items, [SetPage(n)]);
    PagesWrittenAppend(items + [SetPage(n)], rest);
    var later := PagesWritten(rest);
    var pages := [n] + later;
    forall k | 0 <= k < |pages| ensures pages[k] == n + k {
      if k > 0 {
        assert pages[k] == later[k - 1];
      }
    }
  }

  /** Without paging, as in `fetch_uses`, no page number is written. */
  lemma {:induction false} UnpagedWritesNoPage(table: string, offset: int, total: int, fetchPage: int -> Result<seq<Json>, string>, stopAt: (string, int) -> bool)
    ensures PagesWritten(PagesFrom(table, offset, total, fetchPage, stopAt, false).0) == []
    decreases total - offset
  {
    if !(offset >= total || stopAt(table, offset)) && fetchPage(offset).Success? && fetchPage(offset).value != [] {
      var rows := fetchPage(offset).value;
      var items := RowItems(table, rows);
      var rest := PagesFrom(table, offset + PageSize, total, fetchPage, stopAt, false);
      UnpagedWritesNoPage(table, offset + PageSize, total, fetchPage, stopAt);
      assert items + [] == items;
      PagesWrittenAppend(items, rest.0);
      NoPagesInYields(items);
    }
  }

  /** The `for row in rows: yield` loop over one page. */
  method YieldRows(table: string, rows: seq<Json>) returns (items: seq<StreamEvent>)
    ensures items == RowItems(table, rows)
  {
    items := [];
    var k := 0;
    while k < |rows|
      invariant 0 <= k <= |rows|
      invariant items == RowItems(table, rows[..k])
    {
      items := items + [Yield(NaebItem(table, rows[k]))];
      k := k + 1;
    }
    assert rows[..k] == rows;
  }

  /**
   * One pass of the paging loop at `offset < total`: the stop check, the
   * request, and the rows of a non-empty page followed, with `paged`, by
   * the page number. `done` says whether the loop ends here.
   */
  method PageStep(table: string, offset: int, total: int, fetchPage: int -> Result<seq<Json>, string>,
                  stopAt: (string, int) -> bool, paged: bool) returns (chunk: seq<StreamEvent>, done: bool, failure: Option<string>)
    requires offset < total
    ensures failure.Some? ==> done
    ensures done ==> PagesFrom(table, offset, total, fetchPage, stopAt, paged) == (chunk, failure)
    ensures !done ==> PagesFrom(table, offset, total, fetchPage, stopAt, paged)
                      == (chunk + PagesFrom(table, offset + PageSize, total, fetchPage, stopAt, paged).0,
                          PagesFrom(table, offset + PageSize, total, fetchPage, stopAt, paged).1)
  {
    if stopAt(table, offset) {
      return [], true, None;
    }
    var rows := fetchPage(offset);
    if rows.Failure? {
      return [], true, Some(rows.error);
    }
    if rows.value == [] {
      return [], true, None;
    }
    var items := YieldRows(table, rows.value);
    chunk := items + if paged then [SetPage((offset + PageSize) / PageSize)] else [];
    done := false;
    failure := None;
  }

  /**
   * One page appended to the events gathered so far: `whole`, what the loop
   * produces from the start, is those events and the rest of the pages.
   */
  method Advance(ghost whole: seq<StreamEvent>, events: seq<StreamEvent>, table: string, offset: int, total: int,
                 fetchPage: int -> Result<seq<Json>, string>, stopAt: (string, int) -> bool, paged: bool)
    returns (more: seq<StreamEvent>, done: bool, failure: Option<string>)
    requires offset < total
    requires whole == events + PagesFrom(table, offset, total, fetchPage, stopAt, paged).0
    ensures done ==> more == whole && failure == PagesFrom(table, offset, total, fetchPage, stopAt, paged).1
    ensures !done ==> failure.None?
    ensures !done ==> whole == more + PagesFrom(table, offset + PageSize, total, fetchPage, stopAt, paged).0
    ensures !done ==> PagesFrom(table, offset, total, fetchPage, stopAt, paged).1
                      == PagesFrom(table, offset + PageSize, total, fetchPage, stopAt, paged).1
  {
    var chunk;
    chunk, done, failure := PageStep(table, offset, total, fetchPage, stopAt, paged);
    more := events + chunk;
    if !done {
      ghost var rest := PagesFrom(table, offset + PageSize, total, fetchPage, stopAt, paged).0;
      assert events + (chunk + rest) == more + rest;
    }
  }

  /**
   * The paging loop of `fetch_species` / `fetch_uses` from `offset`: the
   * generator steps of `PagesFrom`, page by page.
   */
  method FetchPages(table: string, start: int, total: int, fetchPage: int -> Result<seq<Json>, string>,
                    stopAt: (string, int) -> bool, paged: bool) returns (events: seq<StreamEvent>, failure: Option<string>)
    ensures (events, failure) == PagesFrom(table, start, total, fetchPage, stopAt, paged)
  {
    ghost var whole := PagesFrom(table, start, total, fetchPage, stopAt, paged);
    events := [];
    failure := None;
    var offset := start;
    assert whole.0 == [] + whole.0;
    while offset < total
      invariant whole.0 == events + PagesFrom(table, offset, total, fetchPage, stopAt, paged).0
      invariant whole.1 == PagesFrom(table, offset, total, fetchPage, stopAt, paged).1
      invariant failure.None?
      decreases total - offset
    {
      var done;
      events, done, failure := Advance(whole.0, events, table, offset, total, fetchPage, stopAt, paged);
      if done {
        return;
      }
      offset := offset + PageSize;
    }
    assert events + [] == events;
  }

  /** What `NAEBScraper.scrape` does: the species pages from the snapshot's page, then every uses page. */
  function NaebSteps(startPage: int, speciesCount: Result<int, string>, usesCount: Result<int, string>,
                     fetchSpecies: int -> Result<seq<Json>, string>, fetchUses: int -> Result<seq<Json>, string>,
                     stopAt: (string, int) -> bool): Stream
  {
    match speciesCount
    case Failure(m) => Stream([], StreamError(m))
    case Success(total) =>
      var species := PagesFrom("species", startPage * PageSize, total, fetchSpecies, stopAt, true);
      var head := [SetTotal(total)] + species.0;
      if species.1.Some? then Stream(head, StreamError(species.1.value))
      else
        match usesCount
        case Failure(m) => Stream(head, StreamError(m))
        case Success(usesTotal) =>
          var uses := PagesFrom("uses", 0, usesTotal, fetchUses, stopAt, false);
          Stream(head + uses.0, if uses.1.Some? then StreamError(uses.1.value) else Exhausted)
  }

  /**
   * `NAEBScraper.scrape(resume_from)` with the snapshot's `current_page`:
   * `total_items` is the species count, the species pages start at
   * `current_page * 100`, and the uses pages always start at 0.
   */
  method NaebScrape(startPage: int, speciesCount: Result<int, string>, usesCount: Result<int, string>,
                    fetchSpecies: int -> Result<seq<Json>, string>, fetchUses: int -> Result<seq<Json>, string>,
                    stopAt: (string, int) -> bool) returns (s: Stream)
    ensures s == NaebSteps(startPage, speciesCount, usesCount, fetchSpecies, fetchUses, stopAt)
  {
    if speciesCount.Failure? {
      return Stream([], StreamError(speciesCount.error));
    }
    var total := speciesCount.value;
    var species, failure := FetchPages("species", startPage * PageSize, total, fetchSpecies, stopAt, true);
    var head := [SetTotal(total)] + species;
    if failure.Some? {
      return Stream(head, StreamError(failure.value));
    }
    if usesCount.Failure? {
      return Stream(head, StreamError(usesCount.error));
    }
    var uses, usesFailure := FetchPages("uses", 0, usesCount.value, fetchUses, stopAt, false);
    s := Stream(head + uses, if usesFailure.Some? then StreamError(usesFailure.value) else Exhausted);
  }

  /**
   * Over a whole NAEB scrape, the page numbers written continue from the
   * snapshot's page one by one: `current_page` never goes back.
   */
  lemma NaebPagesAdvance(startPage: int, speciesCount: Result<int, string>, usesCount: Result<int, string>,
                         fetchSpecies: int -> Result<seq<Json>, string>, fetchUses: int -> Result<seq<Json>, string>,
                         stopAt: (string, int) -> bool)
    ensures Consecutive(PagesWritten(NaebSteps(startPage, speciesCount, usesCount, fetchSpecies, fetchUses, stopAt).events), startPage + 1)
  {
    if speciesCount.Success? {
      var total := speciesCount.value;
      var species := PagesFrom("species", startPage * PageSize, total, fetchSpecies, stopAt, true);
      PagesAdvance("species", startPage, total, fetchSpecies, stopAt);
      var written := PagesWritten(species.0);
      PagesWrittenAppend([SetTotal(total)], species.0);
      assert PagesWritten([SetTotal(total)]) == [] by {
        assert [SetTotal(total)][1..] == [];
      }
      var events := NaebSteps(startPage, speciesCount, usesCount, fetchSpecies, fetchUses, stopAt).events;
      if species.1.None? && usesCount.Success? {
        var uses := PagesFrom("uses", 0, usesCount.value, fetchUses, stopAt, false);
        UnpagedWritesNoPage("uses", 0, usesCount.value, fetchUses, stopAt);
        PagesWrittenAppend([SetTotal(total)] + species.0, uses.0);
        assert events == [SetTotal(total)] + species.0 + uses.0;
      } else {
        assert events == [SetTotal(total)] + species.0;
      }
      assert PagesWritten(events) == written;
    }
  }

  // ---------------------------------------------------------------------
  // PubChem
  // ---------------------------------------------------------------------

  /** The item the PubChem generator yields for a compound. */
  function PubChemItem(cid: Json, name: string, props: Json, synonyms: seq<Json>): Json {
    JObj(map["cid" := cid, "name" := JStr(name), "properties" := props, "synonyms" := JList(synonyms)])
  }

  /** `PubChemScraper.process_item`. */
  function PubChemProcessItem(item: Json): Processed {
    if !item.JObj? then ProcessError(NoGet(item))
    else
      var props := Get(item.fields, "properties", EmptyObj);
      if !props.JObj? then ProcessError(NoGet(props))
      else
        var p := props.fields;
        Entity(map[
          "_type" := JStr("ingredient"),
          "name" := Or(Get(p, "IUPACName", JNull), Get(item.fields, "name", JStr(""))),
          "synonyms" := Get(item.fields, "synonyms", JList([])),
          "pubchem_cid" := JStr(PyStr(Get(item.fields, "cid", JStr("")))),
          "inchi_key" := Get(p, "InChIKey", JNull),
          "smiles" := Get(p, "IsomericSMILES", JNull),
          "molecular_formula" := Get(p, "MolecularFormula", JNull),
          "molecular_weight" := Get(p, "MolecularWeight", JNull),
          "description" := JStr("Natural compound. PubChem CID: " + PyStr(Get(item.fields, "cid", JNull)))])
  }

  /**
   * Every compound the generator yields becomes an ingredient, whatever the
   * service returned, keeping the synonyms as they were yielded. Every key
   * is a parameter of `add_ingredient`.
   */
  lemma PubChemIngredient(cid: Json, name: string, props: map<string, Json>, synonyms: seq<Json>)
    ensures var r := PubChemProcessItem(PubChemItem(cid, name, JObj(props), synonyms));
      && r.Entity?
      && r.fields["_type"] == JStr("ingredient")
      && r.fields.Keys <= Params(Ingredients) + {"_type"}
      && r.fields["synonyms"] == JList(synonyms)
  {
    var item := PubChemItem(cid, name, JObj(props), synonyms);
    assert Get(item.fields, "properties", EmptyObj) == JObj(props);
    var r := PubChemProcessItem(item);
  }

  /**
   * The `pubchem_cid` saved for a numeric CID is its decimal text, which
   * reads back as the same number.
   */
  lemma PubChemCidText(cid: int, name: string, props: map<string, Json>, synonyms: seq<Json>)
    ensures var r := PubChemProcessItem(PubChemItem(JInt(cid), name, JObj(props), synonyms));
      && r.Entity? && "pubchem_cid" in r.fields
      && r.fields["pubchem_cid"] == JStr(IntToString(cid))
      && ParseInt(r.fields["pubchem_cid"].s) == Some(cid)
  {
    var item := PubChemItem(JInt(cid), name, JObj(props), synonyms);
    assert Get(item.fields, "cid", JStr("")) == JInt(cid);
    assert Get(item.fields, "properties", EmptyObj) == JObj(props);
    IntToStringRoundTrip(cid);
  }

  /** Every item `events` yields carries a list of at most ten synonyms. */
  predicate SynonymsCapped(events: seq<StreamEvent>) {
    forall k :: 0 <= k < |events| && events[k].Yield? ==>
      (events[k].item.JObj? && "synonyms" in events[k].item.fields && events[k].item.fields["synonyms"].JList?
       && |events[k].item.fields["synonyms"].items| <= MaxSynonyms)
  }

  /** The item yielded for one CID: none when no properties are found for it. */
  function CidItems(name: string, cid: Json, properties: Json -> seq<Json>, synonyms: Json -> seq<Json>)
    : (r: seq<StreamEvent>)
    ensures |r| <= 1
  {
    var props := properties(cid);
    if props != [] then [Yield(PubChemItem(cid, name, props[0], Take(synonyms(cid), MaxSynonyms)))] else []
  }

  /** The items yielded for one compound: each CID with properties, with its first ten synonyms, in order. */
  function CompoundItems(name: string, cids: seq<Json>, properties: Json -> seq<Json>, synonyms: Json -> seq<Json>)
    : (r: seq<StreamEvent>)
    ensures |r| <= |cids|
    decreases |cids|
  {
    if cids == [] then []
    else CompoundItems(name, cids[..|cids| - 1], properties, synonyms) + CidItems(name, cids[|cids| - 1], properties, synonyms)
  }

  /** Each item yielded for a compound carries at most ten synonyms. */
  lemma {:induction false} CompoundItemsShape(name: string, cids: seq<Json>, properties: Json -> seq<Json>,
                                              synonyms: Json -> seq<Json>)
    ensures var r := CompoundItems(name, cids, properties, synonyms);
      (forall k :: 0 <= k < |r| ==> r[k].Yield?) && SynonymsCapped(r)
    decreases |cids|
  {
    if cids != [] {
      CompoundItemsShape(name, cids[..|cids| - 1], properties, synonyms);
    }
  }

  /** The `for cid in cids` loop for one compound. */
  method CompoundSteps(name: string, cids: seq<Json>, properties: Json -> seq<Json>, synonyms: Json -> seq<Json>)
    returns (items: seq<StreamEvent>)
    ensures items == CompoundItems(name, cids, properties, synonyms)
  {
    items := [];
    var j := 0;
    while j < |cids|
      invariant 0 <= j <= |cids|
      invariant items == CompoundItems(name, cids[..j], properties, synonyms)
    {
      var cid := cids[j];
      var props := properties(cid);
      assert cids[..j + 1][..j] == cids[..j];
      if props != [] {
        items := items + [Yield(PubChemItem(cid, name, props[0], Take(synonyms(cid), MaxSynonyms)))];
      }
      j := j + 1;
    }
    assert cids[..j] == cids;
  }

  /** The generator steps for compounds `i..` of the list. */
  function PubChemFrom(names: seq<string>, i: nat, search: string -> seq<Json>, properties: Json -> seq<Json>,
                       synonyms: Json -> seq<Json>, stopAt: nat -> bool): seq<StreamEvent>
    requires i <= |names|
    decreases |names| - i
  {
    if i == |names| || stopAt(i) then []
    else
      CompoundItems(names[i], Take(search(names[i]), MaxCids), properties, synonyms)
      + [SetProcessed(i + 1)]
      + PubChemFrom(names, i + 1, search, properties, synonyms, stopAt)
  }

  /**
   * One pass of the compound loop, with no stop pending: the items for the
   * compound's CIDs, then the write of `processed_items`.
   */
  method CompoundStep(names: seq<string>, i: nat, search: string -> seq<Json>, properties: Json -> seq<Json>,
                      synonyms: Json -> seq<Json>, stopAt: nat -> bool) returns (chunk: seq<StreamEvent>)
    requires i < |names| && !stopAt(i)
    ensures PubChemFrom(names, i, search, properties, synonyms, stopAt)
            == chunk + PubChemFrom(names, i + 1, search, properties, synonyms, stopAt)
  {
    var items := CompoundSteps(names[i], Take(search(names[i]), MaxCids), properties, synonyms);
    chunk := items + [SetProcessed(i + 1)];
  }

  /** The `for i, compound_name in enumerate(...)` loop over a list of compound names. */
  method SearchCompounds(names: seq<string>, search: string -> seq<Json>, properties: Json -> seq<Json>,
                         synonyms: Json -> seq<Json>, stopAt: nat -> bool) returns (events: seq<StreamEvent>)
    ensures events == PubChemFrom(names, 0, search, properties, synonyms, stopAt)
  {
    ghost var whole := PubChemFrom(names, 0, search, properties, synonyms, stopAt);
    events := [];
    var i := 0;
    while i < |names|
      invariant 0 <= i <= |names|
      invariant whole == events + PubChemFrom(names, i, search, properties, synonyms, stopAt)
    {
      if stopAt(i) {
        break;
      }
      var chunk := CompoundStep(names, i, search, properties, synonyms, stopAt);
      events := events + chunk;
      i := i + 1;
    }
    assert events + [] == events;
  }

  /**
   * `PubChemScraper.scrape`: `total_items` is 25; for each compound, until
   * a stop is pending, the first five CIDs the search returns, each yielded
   * when properties exist for it, then `processed_items` set to the number
   * of compounds done. The lookups swallow their own failures, so the
   * generator never raises.
   */
  method PubChemScrape(search: string -> seq<Json>, properties: Json -> seq<Json>,
                       synonyms: Json -> seq<Json>, stopAt: nat -> bool) returns (s: Stream)
    ensures s == Stream([SetTotal(|Compounds|)] + PubChemFrom(Compounds, 0, search, properties, synonyms, stopAt), Exhausted)
  {
    var events := SearchCompounds(Compounds, search, properties, synonyms, stopAt);
    s := Stream([SetTotal(|Compounds|)] + events, Exhausted);
  }

  /** The counts `events` writes to `processed_items`, in order. */
  function CountsWritten(events: seq<StreamEvent>): seq<int>
    decreases |events|
  {
    if events == [] then []
    else (if events[0].SetProcessed? then [events[0].count] else []) + CountsWritten(events[1..])
  }

  lemma {:induction false} CountsWrittenAppend(a: seq<StreamEvent>, b: seq<StreamEvent>)
    ensures CountsWritten(a + b) == CountsWritten(a) + CountsWritten(b)
    decreases |a|
  {
    if a != [] {
      assert (a + b)[1..] == a[1..] + b;
      CountsWrittenAppend(a[1..], b);
    } else {
      assert a + b == b;
    }
  }

  lemma {:induction false} NoCountsInYields(items: seq<StreamEvent>)
    requires forall k :: 0 <= k < |items| ==> items[k].Yield?
    ensures CountsWritten(items) == []
    decreases |items|
  {
    if items != [] {
      NoCountsInYields(items[1..]);
    }
  }

  /**
   * From compound `i` on, the PubChem generator overwrites
   * `processed_items` with `i + 1`, `i + 2`, ...: the count of compounds
   * searched, not of items saved.
   */
  lemma {:induction false} PubChemCounts(names: seq<string>, i: nat, search: string -> seq<Json>, properties: Json -> seq<Json>,
                                         synonyms: Json -> seq<Json>, stopAt: nat -> bool)
    requires i <= |names|
    ensures |CountsWritten(PubChemFrom(names, i, search, properties, synonyms, stopAt))| <= |names| - i
    ensures Consecutive(CountsWritten(PubChemFrom(names, i, search, properties, synonyms, stopAt)), i + 1)
    decreases |names| - i
  {
    if !(i == |names| || stopAt(i)) {
      var items := CompoundItems(names[i], Take(search(names[i]), MaxCids), properties, synonyms);
      var rest := PubChemFrom(names, i + 1, search, properties, synonyms, stopAt);
      assert PubChemFrom(names, i, search, properties, synonyms, stopAt) == items + [SetProcessed(i + 1)] + rest;
      PubChemCounts(names, i + 1, search, properties, synonyms, stopAt);
      CompoundItemsShape(names[i], Take(search(names[i]), MaxCids), properties, synonyms);
      CountsStep(items, i + 1, rest);
    }
  }

  /** Yields followed by a write of `n`, then counts going on from `n + 1`, count on from `n`. */
  lemma CountsStep(items: seq<StreamEvent>, n: int, rest: seq<StreamEvent>)
    requires forall k :: 0 <= k < |items| ==> items[k].Yield?
    requires Consecutive(CountsWritten(rest), n + 1)
    ensures Consecutive(CountsWritten(items + [SetProcessed(n)] + rest), n)
    ensures |CountsWritten(items + [SetProcessed(n)] + rest)| == |CountsWritten(rest)| + 1
  {
    NoCountsInYields(items);
    assert CountsWritten([SetProcessed(n)]) == [n] by {
      assert [SetProcessed(n)][1..] == [];
    }
    CountsWrittenAppend(items, [SetProcessed(n)]);
    CountsWrittenAppend(items + [SetProcessed(n)], rest);
    var later := CountsWritten(rest);
    var counts := [n] + later;
    forall k | 0 <= k < |counts| ensures counts[k] == n + k {
      if k > 0 {
        assert counts[k] == later[k - 1];
      }
    }
  }

  /** No item the PubChem generator yields carries more than ten synonyms. */
  lemma {:induction false} PubChemSynonymsCapped(names: seq<string>, i: nat, search: string -> seq<Json>, properties: Json -> seq<Json>,
                                                 synonyms: Json -> seq<Json>, stopAt: nat -> bool)
    requires i <= |names|
    ensures SynonymsCapped(PubChemFrom(names, i, search, properties, synonyms, stopAt))
    decreases |names| - i
  {
    if !(i == |names| || stopAt(i)) {
      var items := CompoundItems(names[i], Take(search(names[i]), MaxCids), properties, synonyms);
      var rest := PubChemFrom(names, i + 1, search, properties, synonyms, stopAt);
      assert PubChemFrom(names, i, search, properties, synonyms, stopAt) == items + [SetProcessed(i + 1)] + rest;
      PubChemSynonymsCapped(names, i + 1, search, properties, synonyms, stopAt);
      CompoundItemsShape(names[i], Take(search(names[i]), MaxCids), properties, synonyms);
      SynonymsCappedAppend(items, [SetProcessed(i + 1)]);
      SynonymsCappedAppend(items + [SetProcessed(i + 1)], rest);
    }
  }

  lemma SynonymsCappedAppend(a: seq<StreamEvent>, b: seq<StreamEvent>)
    requires SynonymsCapped(a) && SynonymsCapped(b)
    ensures SynonymsCapped(a + b)
  {
    forall k | 0 <= k < |a + b| && (a + b)[k].Yield?
      ensures (a + b)[k].item.JObj? && "synonyms" in (a + b)[k].item.fields
              && (a + b)[k].item.fields["synonyms"].JList?
              && |(a + b)[k].item.fields["synonyms"].items| <= MaxSynonyms
    {
      if k >= |a| {
        assert (a + b)[k] == b[k - |a|];
      }
    }
  }

  /** At most five items per compound searched. */
  lemma {:induction false} PubChemYieldCount(names: seq<string>, i: nat, search: string -> seq<Json>, properties: Json -> seq<Json>,
                                             synonyms: Json -> seq<Json>, stopAt: nat -> bool)
    requires i <= |names|
    ensures |Yields(PubChemFrom(names, i, search, properties, synonyms, stopAt))| <= MaxCids * (|names| - i)
    decreases |names| - i
  {
    if !(i == |names| || stopAt(i)) {
      var cids := Take(search(names[i]), MaxCids);
      var items := CompoundItems(names[i], cids, properties, synonyms);
      var rest := PubChemFrom(names, i + 1, search, properties, synonyms, stopAt);
      PubChemYieldCount(names, i + 1, search, properties, synonyms, stopAt);
      assert PubChemFrom(names, i, search, properties, synonyms, stopAt) == items + [SetProcessed(i + 1)] + rest;
      CompoundItemsShape(names[i], cids, properties, synonyms);
      YieldsStep(items, i + 1, rest);
    }
  }

  /** Yields, a counter write, then more events: the yields are those items and the later yields. */
  lemma YieldsStep(items: seq<StreamEvent>, n: int, rest: seq<StreamEvent>)
    requires forall k :: 0 <= k < |items| ==> items[k].Yield?
    ensures |Yields(items + [SetProcessed(n)] + rest)| == |items| + |Yields(rest)|
  {
    YieldsAppend(items + [SetProcessed(n)], rest);
    YieldsAppend(items, [SetProcessed(n)]);
    assert Yields([SetProcessed(n)]) == [] by {
      assert [SetProcessed(n)][1..] == [];
    }
    AllYields(items);
  }

  lemma {:induction false} YieldsAppend(a: seq<StreamEvent>, b: seq<StreamEvent>)
    ensures Yields(a + b) == Yields(a) + Yields(b)
    decreases |a|
  {
    if a != [] {
      assert (a + b)[1..] == a[1..] + b;
      YieldsAppend(a[1..], b);
    } else {
      assert a + b == b;
    }
  }

  lemma {:induction false} AllYields(items: seq<StreamEvent>)
    requires forall k :: 0 <= k < |items| ==> items[k].Yield?
    ensures |Yields(items)| == |items|
    decreases |items|
  {
    if items != [] {
      AllYields(items[1..]);
    }
  }

  /** With no stop pending, every compound is searched and the last step writes the number of compounds. */
  lemma {:induction false} PubChemEndsWithCount(names: seq<string>, i: nat, search: string -> seq<Json>, properties: Json -> seq<Json>,
                                                synonyms: Json -> seq<Json>, stopAt: nat -> bool)
    requires i < |names| && forall k :: !stopAt(k)
    ensures var events := PubChemFrom(names, i, search, properties, synonyms, stopAt);
      events != [] && events[|events| - 1] == SetProcessed(|names|)
    decreases |names| - i
  {
    if i + 1 < |names| {
      PubChemEndsWithCount(names, i + 1, search, properties, synonyms, stopAt);
    }
  }

  /**
   * In a run without a callback and with no stop pending, a generator step
   * that writes `processed_items` last decides the count the run ends with,
   * whatever the run itself counted before.
   */
  lemma {:induction false} LastCountWins(st: RunState, s: Stream, i: nat, env: Env, n: int)
    requires i < |s.events| && env.callback.None? && !st.stop && s.end.Exhausted?
    requires s.events[|s.events| - 1] == SetProcessed(n)
    ensures RunFrom(st, s, i, env).progress.processedItems == n
    decreases |s.events| - i
  {
    if !s.events[i].Yield? {
      if i + 1 < |s.events| {
        LastCountWins(Apply(st, s.events[i]), s, i + 1, env, n);
      }
    } else {
      LastCountWins(Attempt(st, s.events[i].item, env), s, i + 1, env, n);
    }
  }

  /**
   * A PubChem run that is never stopped ends with `processed_items` equal
   * to the number of compound names searched, 25, however many
   * ingredients it saved: the generator's counter overwrites the run's.
   */
  lemma PubChemRunCount(resumeFrom: Option<ScraperProgress>, tables: Tables, search: string -> seq<Json>,
                        properties: Json -> seq<Json>, synonyms: Json -> seq<Json>, stopAt: nat -> bool,
                        sourceId: Option<int>, sourceIds: set<int>)
    requires forall k :: !stopAt(k)
    ensures RunFrom(Start(resumeFrom, tables),
                    Stream([SetTotal(|Compounds|)] + PubChemFrom(Compounds, 0, search, properties, synonyms, stopAt), Exhausted),
                    0, Env(PubChemProcessItem, None, sourceId, sourceIds)).progress.processedItems == |Compounds|
  {
    var tail := PubChemFrom(Compounds, 0, search, properties, synonyms, stopAt);
    PubChemEndsWithCount(Compounds, 0, search, properties, synonyms, stopAt);
    var events := [SetTotal(|Compounds|)] + tail;
    assert events[|events| - 1] == tail[|tail| - 1];
    LastCountWins(Start(resumeFrom, tables), Stream(events, Exhausted), 0,
                  Env(PubChemProcessItem, None, sourceId, sourceIds), |Compounds|);
  }

  // ---------------------------------------------------------------------
  // Registration
  // ---------------------------------------------------------------------

  const NaebClass := ScraperClass("NAEBScraper", NaebProcessItem)
  const PubChemClass := ScraperClass("PubChemScraper", PubChemProcessItem)

  /**
   * The `@register_scraper` decorations of the module: "NAEB Datasette"
   * and then "PubChem".
   */
  method RegisterCrawlers(registry: SourceRegistry)
    requires registry.Valid()
    modifies registry
    ensures registry.Valid()
    ensures registry.scrapers == old(registry.scrapers)["NAEB Datasette" := NaebClass]["PubChem" := PubChemClass]
    ensures old(registry.names) == [] ==> registry.ListSources() == ["NAEB Datasette", "PubChem"]
  {
    var _ := registry.RegisterScraper("NAEB Datasette", NaebClass);
    var _ := registry.RegisterScraper("PubChem", PubChemClass);
  }
}
