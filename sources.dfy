/**
 * The registry of scraper classes (grimmoire/scraper/sources.py): a
 * mapping from a source name to the class that scrapes it, kept in the
 * order names were first registered, from which scrapers are built on
 * demand.
 */
module Sources {
  import opened Wrappers
  import opened Json
  import opened Progress
  import opened Store
  import opened Scraper

  /** The elements of `s` are pairwise distinct. */
  predicate Distinct<T(==)>(s: seq<T>) {
    forall i, j :: 0 <= i < j < |s| ==> s[i] != s[j]
  }

  /** A sequence without repetitions has as many elements as its set. */
  lemma {:induction false} DistinctCardinality<T>(s: seq<T>)
    requires Distinct(s)
    ensures |set x | x in s| == |s|
    decreases |s|
  {
    if s != [] {
      var rest := s[1..];
      assert Distinct(rest) by {
        forall i, j | 0 <= i < j < |rest| ensures rest[i] != rest[j] {
          assert rest[i] == s[i + 1] && rest[j] == s[j + 1];
        }
      }
      DistinctCardinality(rest);
      assert s[0] !in rest by {
        forall k | 0 <= k < |rest| ensures rest[k] != s[0] {
          assert rest[k] == s[k + 1];
        }
      }
      assert (set x | x in s) == (set x | x in rest) + {s[0]} by {
        assert s == [s[0]] + rest;
      }
    }
  }

  /**
   * `SourceRegistry`: the class-level `_scrapers` mapping. A Python `dict`
   * remembers the order in which keys were first inserted; `names` is that
   * order.
   */
  class SourceRegistry {
    var scrapers: map<string, ScraperClass>
    var names: seq<string>

    ghost predicate Valid()
      reads this
    {
      Distinct(names) && forall n :: n in scrapers <==> n in names
    }

    /** The registry before any class has been registered. */
    constructor ()
      ensures Valid() && scrapers == map[] && names == []
    {
      scrapers := map[];
      names := [];
    }

    /**
     * `register(name, scraper_class)`: binds the name, replacing an earlier
     * binding in place; a new name goes to the end of the listing.
     */
    method Register(name: string, c: ScraperClass)
      requires Valid()
      modifies this
      ensures Valid()
      ensures scrapers == old(scrapers)[name := c]
      ensures name in old(scrapers) ==> names == old(names)
      ensures name !in old(scrapers) ==> names == old(names) + [name]
    {
      if name !in scrapers {
        names := names + [name];
      }
      scrapers := scrapers[name := c];
    }

    /**
     * `get_scraper(name, db, config)`: a new scraper of the registered
     * class for this name, or `None` for a name nobody registered.
     */
    method GetScraper(name: string, db: Store, config: Json) returns (r: Option<Scraper>)
      ensures name !in scrapers ==> r.None?
      ensures name in scrapers ==>
        && r.Some? && fresh(r.value)
        && r.value.cls == scrapers[name] && r.value.db == db && r.value.sourceName == name
        && r.value.config == OrEmpty(config) && r.value.progress == Fresh && !r.value.stopRequested
      ensures name in scrapers ==>
        && (r.value.sourceId.None? <==> forall x :: x in db.sources ==> x.name != name)
        && (r.value.sourceId.Some? ==> exists x :: x in db.sources && x.name == name && x.id == r.value.sourceId.value)
    {
      if name in scrapers {
        var s := new Scraper(db, name, config, scrapers[name]);
        return Some(s);
      }
      return None;
    }

    /** `list_sources()`: every registered name once, in registration order. */
    function ListSources(): (r: seq<string>)
      requires Valid()
      reads this
      ensures r == names
      ensures Distinct(r) && |r| == |scrapers.Keys|
      ensures forall n :: n in r <==> n in scrapers
    {
      DistinctCardinality(names);
      assert (set x | x in names) == scrapers.Keys;
      names
    }

    /** `has_scraper(name)`: whether `list_sources()` names it. */
    function HasScraper(name: string): (b: bool)
      requires Valid()
      reads this
      ensures b <==> name in ListSources()
      ensures b <==> name in scrapers
    {
      name in scrapers
    }

    /**
     * The `register_scraper(name)` decorator applied to a class: the class
     * is registered under the name and returned unchanged.
     */
    method RegisterScraper(name: string, c: ScraperClass) returns (r: ScraperClass)
      requires Valid()
      modifies this
      ensures Valid() && r == c
      ensures scrapers == old(scrapers)[name := c]
      ensures name in old(scrapers) ==> names == old(names)
      ensures name !in old(scrapers) ==> names == old(names) + [name]
    {
      Register(name, c);
      return c;
    }
  }
}
