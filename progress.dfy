/**
 * The progress snapshot of a scrape (`ScraperProgress` in
 * grimmoire/scraper/base.py) and its lossy conversion to and from the
 * plain mapping that is persisted as a job's progress and as the payload
 * of `progress` journal events.
 */
module Progress {
  import opened Wrappers
  import opened Json

  /** Only the most recent errors survive serialisation. */
  const MaxSavedErrors := 10

  datatype ScraperProgress = ScraperProgress(
    totalItems: int,
    processedItems: int,
    currentPage: int,
    lastId: Option<string>,
    errors: seq<string>)

  /** A snapshot with every field at its default. */
  const Fresh := ScraperProgress(0, 0, 0, None, [])

  /** The keys `to_dict` writes. */
  const Keys: set<string> := {"total_items", "processed_items", "current_page", "last_id", "errors"}

  /** `errors[-10:]`: the last ten entries, in their original order. */
  function LastErrors(errors: seq<string>): (r: seq<string>)
    ensures |r| == if |errors| <= MaxSavedErrors then |errors| else MaxSavedErrors
    ensures r == errors[|errors| - |r|..]
  {
    if |errors| <= MaxSavedErrors then errors else errors[|errors| - MaxSavedErrors..]
  }

  /** A list of strings as a JSON list. */
  function StrList(xs: seq<string>): (r: seq<Json>)
    ensures |r| == |xs| && forall k :: 0 <= k < |xs| ==> r[k] == JStr(xs[k])
  {
    seq(|xs|, k requires 0 <= k < |xs| => JStr(xs[k]))
  }

  /** The strings of a JSON list whose every element is a string. */
  function Strs(js: seq<Json>): (r: seq<string>)
    requires forall k :: 0 <= k < |js| ==> js[k].JStr?
    ensures |r| == |js| && forall k :: 0 <= k < |js| ==> js[k] == JStr(r[k])
  {
    seq(|js|, k requires 0 <= k < |js| => js[k].s)
  }

  /** `last_id` as it is written: a string or `null`. */
  function OptStr(o: Option<string>): Json {
    match o
    case Some(s) => JStr(s)
    case None => JNull
  }

  /** `ScraperProgress.to_dict`. */
  function ToDict(p: ScraperProgress): (d: map<string, Json>)
    ensures d.Keys == Keys
    ensures d["total_items"] == JInt(p.totalItems) && d["processed_items"] == JInt(p.processedItems)
    ensures d["current_page"] == JInt(p.currentPage) && d["last_id"] == OptStr(p.lastId)
    ensures d["errors"].JList? && |d["errors"].items| <= MaxSavedErrors
    ensures d["errors"] == JList(StrList(LastErrors(p.errors)))
  {
    map[
      "total_items" := JInt(p.totalItems),
      "processed_items" := JInt(p.processedItems),
      "current_page" := JInt(p.currentPage),
      "last_id" := OptStr(p.lastId),
      "errors" := JList(StrList(LastErrors(p.errors)))]
  }

  /**
   * The mappings `from_dict` can turn into a snapshot whose fields have the
   * types the dataclass declares: each key that is present holds an
   * integer, a string or `null` (for `last_id`), or a list of strings.
   */
  predicate WellTyped(d: map<string, Json>) {
    && ("total_items" in d ==> d["total_items"].JInt?)
    && ("processed_items" in d ==> d["processed_items"].JInt?)
    && ("current_page" in d ==> d["current_page"].JInt?)
    && ("last_id" in d ==> d["last_id"].JStr? || d["last_id"].JNull?)
    && ("errors" in d ==>
          d["errors"].JList? && forall k :: 0 <= k < |d["errors"].items| ==> d["errors"].items[k].JStr?)
  }

  /** `ScraperProgress.from_dict`: every missing key takes its default. */
  function FromDict(d: map<string, Json>): (p: ScraperProgress)
    requires WellTyped(d)
    ensures "total_items" in d ==> d["total_items"] == JInt(p.totalItems)
    ensures "total_items" !in d ==> p.totalItems == 0
    ensures "processed_items" in d ==> d["processed_items"] == JInt(p.processedItems)
    ensures "processed_items" !in d ==> p.processedItems == 0
    ensures "current_page" in d ==> d["current_page"] == JInt(p.currentPage)
    ensures "current_page" !in d ==> p.currentPage == 0
    ensures "last_id" in d ==> d["last_id"] == OptStr(p.lastId)
    ensures "last_id" !in d ==> p.lastId == None
    ensures "errors" in d ==> d["errors"] == JList(StrList(p.errors))
    ensures "errors" !in d ==> p.errors == []
  {
    ScraperProgress(
      Get(d, "total_items", JInt(0)).i,
      Get(d, "processed_items", JInt(0)).i,
      Get(d, "current_page", JInt(0)).i,
      if "last_id" in d && d["last_id"].JStr? then Some(d["last_id"].s) else None,
      if "errors" in d then Strs(d["errors"].items) else [])
  }

  /** Every mapping `to_dict` produces is one `from_dict` accepts. */
  lemma ToDictWellTyped(p: ScraperProgress)
    ensures WellTyped(ToDict(p))
  {
  }

  /**
   * The round-trip law: `from_dict(to_dict(p))` is `p` except that only the
   * last ten errors survive.
   */
  lemma {:induction false} RoundTrip(p: ScraperProgress)
    ensures WellTyped(ToDict(p))
    ensures FromDict(ToDict(p)) == p.(errors := LastErrors(p.errors))
  {
    var d := ToDict(p);
    var q := FromDict(d);
    var es := LastErrors(p.errors);
    assert JList(StrList(q.errors)) == JList(StrList(es));
    assert |q.errors| == |es|;
    forall k | 0 <= k < |es| ensures q.errors[k] == es[k] {
      assert StrList(q.errors)[k] == StrList(es)[k];
    }
  }

  /** A snapshot with at most ten errors survives the round trip unchanged. */
  lemma RoundTripExact(p: ScraperProgress)
    requires |p.errors| <= MaxSavedErrors
    ensures FromDict(ToDict(p)) == p
  {
    RoundTrip(p);
  }

  /** Serialising a restored snapshot gives back the same mapping: the loss happens once. */
  lemma {:induction false} ToDictStable(p: ScraperProgress)
    ensures ToDict(FromDict(ToDict(p))) == ToDict(p)
  {
    RoundTrip(p);
    var es := LastErrors(p.errors);
    assert LastErrors(es) == es;
  }

  /**
   * A persisted progress mapping that carries only a processed count is
   * restored with every other field at its default.
   */
  lemma RestoreSparseMapping(n: int)
    ensures FromDict(map["processed_items" := JInt(n)]) == ScraperProgress(0, n, 0, None, [])
  {
  }
}
