/**
 * The main loop of both script versions: getRSS folded over the configured
 * feeds in order, threading the flat `parsed` list (or None, once a feed has
 * raised) and the feed cache.
 */
module Pipeline {
  import opened Wrappers
  import opened FeedCache
  import opened Feeds

  /** The list the main loop starts from: one empty triple. */
  const Sentinel: seq<string> := ["", "", ""]

  /**
   * One call of getRSS as the cache and the list see it: the site name, the
   * serialized feed (None when fetching or parsing raised), whether reading the
   * cache file fails, and what extraction would give (None when it raises).
   */
  datatype Visit = Visit(site: string, payload: Option<string>, cacheFault: bool, extracted: Option<Article>)

  /** The variables the main loop threads: `parsed` (None is Python's None) and the cache entries. */
  datatype State = State(parsed: Option<seq<string>>, cache: map<string, string>)

  /** checkCache's answer for a fetched visit. */
  predicate IsNew(s: State, v: Visit)
    requires v.payload.Some?
  {
    Changed(ReadEntry(s.cache, v.site, v.cacheFault), v.payload.value)
  }

  /** The article a visit adds: one when the feed was fetched, is new and extracts. */
  function Contribution(s: State, v: Visit): seq<Article> {
    if v.payload.Some? && IsNew(s, v) && v.extracted.Some? then [v.extracted.value] else []
  }

  /**
   * A visit that does not turn the list into None: the feed was fetched and,
   * when its content is new, the article extracts.
   */
  predicate Survives(s: State, v: Visit) {
    v.payload.Some? && (IsNew(s, v) ==> v.extracted.Some?)
  }

  /** getRSS(parsed, site, config): the new `parsed` and the new cache. */
  function Step(s: State, v: Visit): (r: State)
    ensures r.parsed.Some? <==> s.parsed.Some? && Survives(s, v)
    ensures v.payload.None? ==> r == State(None, s.cache)
    ensures v.payload.Some? && !IsNew(s, v) ==> r == s
    ensures v.payload.Some? && IsNew(s, v) ==> r.cache == Store(s.cache, v.site, v.payload.value)
    ensures s.parsed.None? ==> r.parsed.None?
    ensures r.parsed.Some? ==> s.parsed.Some? && r.parsed.value == s.parsed.value + Flatten(Contribution(s, v))
  {
    match v.payload
    case None => State(None, s.cache)
    case Some(soup) =>
      if !Changed(ReadEntry(s.cache, v.site, v.cacheFault), soup) then s
      else
        var cache := Store(s.cache, v.site, soup);
        match (s.parsed, v.extracted)
        case (Some(list), Some(a)) =>
          assert Flatten([a]) == [a.title, a.details, a.content] by {
            assert [a][..0] == [];
          }
          State(Some(list + [a.title, a.details, a.content]), cache)
        case _ => State(None, cache)
  }

  /** The main loop `for site in config: parsed = getRSS(parsed, site, config[site])`. */
  function RunFrom(start: State, visits: seq<Visit>): (r: State)
    ensures start.cache.Keys <= r.cache.Keys
    ensures r.parsed.Some? ==> start.parsed.Some? && |start.parsed.value| <= |r.parsed.value|
                               && r.parsed.value[..|start.parsed.value|] == start.parsed.value
    decreases |visits|
  {
    if visits == [] then start
    else
      var before := RunFrom(start, visits[..|visits| - 1]);
      var r := Step(before, visits[|visits| - 1]);
      assert r.parsed.Some? ==> r.parsed.value[..|before.parsed.value|] == before.parsed.value;
      r
  }

  /** The articles the loop gathers, as structured records, in feed order. */
  function Collected(start: State, visits: seq<Visit>): seq<Article>
    decreases |visits|
  {
    if visits == [] then []
    else
      var init := visits[..|visits| - 1];
      Collected(start, init) + Contribution(RunFrom(start, init), visits[|visits| - 1])
  }

  /**
   * When the loop ends with a list, that list is the starting list followed
   * by the title, details and content of every collected article, in feed order.
   */
  lemma {:induction false} RunCollects(start: State, visits: seq<Visit>)
    requires start.parsed.Some?
    ensures RunFrom(start, visits).parsed.Some? ==>
      RunFrom(start, visits).parsed.value == start.parsed.value + Flatten(Collected(start, visits))
    decreases |visits|
  {
    if visits != [] {
      var init := visits[..|visits| - 1];
      var v := visits[|visits| - 1];
      var reached := RunFrom(start, init);
      var c := Contribution(reached, v);
      assert RunFrom(start, visits) == Step(reached, v);
      assert Collected(start, visits) == Collected(start, init) + c;
      RunCollects(start, init);
      FlattenAppend(Collected(start, init), c);
      if Step(reached, v).parsed.Some? {
        assert start.parsed.value + Flatten(Collected(start, init)) + Flatten(c)
            == start.parsed.value + (Flatten(Collected(start, init)) + Flatten(c));
      }
    } else {
      assert start.parsed.value + Flatten([]) == start.parsed.value;
    }
  }

  /**
   * From a list whose length is a multiple of 3, every prefix of the loop
   * keeps that list in front and a length that is a multiple of 3.
   */
  lemma RunKeepsTriples(start: State, visits: seq<Visit>)
    requires start.parsed.Some? && |start.parsed.value| % 3 == 0
    ensures var p := RunFrom(start, visits).parsed;
      p.Some? ==> |p.value| % 3 == 0 && |start.parsed.value| <= |p.value|
                  && p.value[..|start.parsed.value|] == start.parsed.value
  {
    RunCollects(start, visits);
    AppendTriples(start.parsed.value, Collected(start, visits));
  }

  lemma AppendTriples(a: seq<string>, c: seq<Article>)
    requires |a| % 3 == 0
    ensures |a + Flatten(c)| % 3 == 0 && (a + Flatten(c))[..|a|] == a
  {
    MultipleOfThree(|a|, |c|);
  }

  /**
   * From the sentinel, the final list has exactly three entries when no
   * article was collected, and otherwise holds the collected articles'
   * fields after those three.
   */
  lemma SentinelThenArticles(start: State, visits: seq<Visit>)
    requires start.parsed == Some(Sentinel)
    requires RunFrom(start, visits).parsed.Some?
    ensures var items := RunFrom(start, visits).parsed.value;
      var articles := Collected(start, visits);
      && 3 <= |items|
      && (|items| == 3 <==> articles == [])
      && items[3..] == Flatten(articles)
  {
    RunCollects(start, visits);
    var articles := Collected(start, visits);
    assert (Sentinel + Flatten(articles))[3..] == Flatten(articles);
  }

  lemma MultipleOfThree(a: nat, n: nat)
    requires a % 3 == 0
    ensures (a + 3 * n) % 3 == 0
  {
    assert a + 3 * n == 3 * (a / 3 + n);
  }

  /** Once getRSS has returned None, every later call returns None as well. */
  lemma {:induction false} NoneIsFinal(start: State, visits: seq<Visit>, i: nat)
    requires i <= |visits| && RunFrom(start, visits[..i]).parsed.None?
    ensures RunFrom(start, visits).parsed.None?
    decreases |visits| - i
  {
    if i == |visits| {
      assert visits[..i] == visits;
    } else {
      assert visits[..i + 1][..i] == visits[..i];
      NoneIsFinal(start, visits, i + 1);
    }
  }

  /**
   * The list survives the whole loop exactly when it was a list to begin with
   * and every feed, in the state the loop had reached, survives.
   */
  lemma {:induction false} RunSurvives(start: State, visits: seq<Visit>)
    ensures RunFrom(start, visits).parsed.Some? <==>
              start.parsed.Some? && EverySurvives(start, visits, |visits|)
    decreases |visits|
  {
    if visits != [] {
      var n := |visits| - 1;
      var init := visits[..n];
      var reached := RunFrom(start, init);
      RunSurvives(start, init);
      assert RunFrom(start, visits) == Step(reached, visits[n]);
      EverySurvivesPrefix(start, visits, n);
      EverySurvivesExtend(start, visits, n);
    }
  }

  /** Whether the first n feeds survive depends only on those n feeds. */
  lemma EverySurvivesPrefix(start: State, visits: seq<Visit>, n: nat)
    requires n <= |visits|
    ensures EverySurvives(start, visits, n) == EverySurvives(start, visits[..n], n)
  {
    forall i | 0 <= i < n
      ensures visits[..i] == visits[..n][..i] && visits[i] == visits[..n][i]
    {
    }
  }

  /** The first n + 1 feeds survive when the first n do and then feed n does. */
  lemma EverySurvivesExtend(start: State, visits: seq<Visit>, n: nat)
    requires n < |visits|
    ensures EverySurvives(start, visits, n + 1) <==>
              EverySurvives(start, visits, n) && Survives(RunFrom(start, visits[..n]), visits[n])
  {
  }

  /** Each of the first k feeds survives in the state the loop had reached before it. */
  predicate EverySurvives(start: State, visits: seq<Visit>, k: nat)
    requires k <= |visits|
  {
    forall i :: 0 <= i < k ==> Survives(RunFrom(start, visits[..i]), visits[i])
  }

  /** One feed that fails, or whose new content does not extract, leaves no list at the end. */
  lemma FailedFeedLosesList(start: State, visits: seq<Visit>, i: nat)
    requires i < |visits| && !Survives(RunFrom(start, visits[..i]), visits[i])
    ensures RunFrom(start, visits).parsed.None?
  {
    RunSurvives(start, visits);
  }

  /**
   * With the script as written, a first feed whose fetch raises makes the run
   * end with no list, although the second feed is new and extracts; the
   * corrected loop keeps that second article.
   */
  lemma BrokenFeedSinksIssue()
    ensures var start := State(Some(Sentinel), map[]);
      var visits := [Visit("a", None, false, None),
                     Visit("b", Some("<rss/>"), false, Some(Article("t", "d", "c")))];
      RunFrom(start, visits).parsed == None &&
      RunSkipping(start, visits).parsed == Some(Sentinel + ["t", "d", "c"])
  {
    var start := State(Some(Sentinel), map[]);
    var visits := [Visit("a", None, false, None),
                   Visit("b", Some("<rss/>"), false, Some(Article("t", "d", "c")))];
    assert visits[..1][..0] == [] && visits[..2][..1] == visits[..1] && visits[..2] == visits;
    assert RunFrom(start, visits[..1]).parsed == None;
    assert RunSkipping(start, visits[..1]) == start;
  }

  /**
   * getRSS as evidently intended: a feed that raises contributes nothing and
   * the list is kept for the feeds after it. The cache is written as before.
   */
  function SkippingStep(s: State, v: Visit): (r: State)
    ensures r.parsed.Some? <==> s.parsed.Some?
    ensures r.parsed.Some? ==> r.parsed.value == s.parsed.value + Flatten(Contribution(s, v))
  {
    match v.payload
    case None => s
    case Some(soup) =>
      if !Changed(ReadEntry(s.cache, v.site, v.cacheFault), soup) then s
      else
        var cache := Store(s.cache, v.site, soup);
        match (s.parsed, v.extracted)
        case (Some(list), Some(a)) =>
          assert Flatten([a]) == [a.title, a.details, a.content] by {
            assert [a][..0] == [];
          }
          State(Some(list + [a.title, a.details, a.content]), cache)
        case _ => State(s.parsed, cache)
  }

  /**
   * The corrected step writes the cache as the script's step does, and where
   * the script's step keeps its list the two steps agree.
   */
  lemma SkippingStepMatchesScript(s: State, v: Visit)
    ensures SkippingStep(s, v).cache == Step(s, v).cache
    ensures Step(s, v).parsed.Some? ==> SkippingStep(s, v) == Step(s, v)
  {
  }

  /** The main loop with the corrected step. */
  function RunSkipping(start: State, visits: seq<Visit>): State
    decreases |visits|
  {
    if visits == [] then start
    else SkippingStep(RunSkipping(start, visits[..|visits| - 1]), visits[|visits| - 1])
  }

  /** The articles the corrected loop gathers, in feed order. */
  function Gathered(start: State, visits: seq<Visit>): seq<Article>
    decreases |visits|
  {
    if visits == [] then []
    else
      var init := visits[..|visits| - 1];
      Gathered(start, init) + Contribution(RunSkipping(start, init), visits[|visits| - 1])
  }

  /**
   * The corrected loop always ends with a list: the starting list followed by
   * every article gathered, in feed order.
   */
  lemma {:induction false} RunSkippingKeepsList(start: State, visits: seq<Visit>)
    requires start.parsed.Some?
    ensures RunSkipping(start, visits).parsed == Some(start.parsed.value + Flatten(Gathered(start, visits)))
    decreases |visits|
  {
    if visits != [] {
      var init := visits[..|visits| - 1];
      var v := visits[|visits| - 1];
      var reached := RunSkipping(start, init);
      RunSkippingKeepsList(start, init);
      GatherStep(start.parsed.value, Gathered(start, init), reached, v);
      assert RunSkipping(start, visits) == SkippingStep(reached, v);
      assert Gathered(start, visits) == Gathered(start, init) + Contribution(reached, v);
    } else {
      assert start.parsed.value + Flatten([]) == start.parsed.value;
    }
  }

  /** One step of RunSkippingKeepsList: the feed's article goes after the earlier ones. */
  lemma GatherStep(list: seq<string>, earlier: seq<Article>, reached: State, v: Visit)
    requires reached.parsed == Some(list + Flatten(earlier))
    ensures SkippingStep(reached, v).parsed == Some(list + Flatten(earlier + Contribution(reached, v)))
  {
    var c := Contribution(reached, v);
    FlattenAppend(earlier, c);
    assert list + Flatten(earlier) + Flatten(c) == list + (Flatten(earlier) + Flatten(c));
  }

  /** The corrected loop writes the cache exactly as the script's loop does. */
  lemma {:induction false} RunSkippingCache(start: State, visits: seq<Visit>)
    ensures RunSkipping(start, visits).cache == RunFrom(start, visits).cache
    decreases |visits|
  {
    if visits != [] {
      var init := visits[..|visits| - 1];
      var v := visits[|visits| - 1];
      RunSkippingCache(start, init);
      assert RunSkipping(start, visits) == SkippingStep(RunSkipping(start, init), v);
      assert RunFrom(start, visits) == Step(RunFrom(start, init), v);
      SkippingStepMatchesScript(RunSkipping(start, init), v);
      StepCacheIgnoresParsed(RunSkipping(start, init), RunFrom(start, init), v);
    }
  }

  /** Where the script's loop keeps its list, the corrected loop agrees with it exactly. */
  lemma {:induction false} RunSkippingAgrees(start: State, visits: seq<Visit>)
    requires RunFrom(start, visits).parsed.Some?
    ensures RunSkipping(start, visits) == RunFrom(start, visits)
    decreases |visits|
  {
    if visits != [] {
      var init := visits[..|visits| - 1];
      var v := visits[|visits| - 1];
      assert RunFrom(start, visits) == Step(RunFrom(start, init), v);
      RunSkippingAgrees(start, init);
      SkippingStepMatchesScript(RunFrom(start, init), v);
    }
  }

  lemma StepCacheIgnoresParsed(s: State, t: State, v: Visit)
    requires s.cache == t.cache
    ensures Step(s, v).cache == Step(t, v).cache
  {
  }

  /**
   * The cache the loop leaves does not depend on `parsed`: after a feed has
   * turned the list into None, later feeds with new content are still saved.
   */
  lemma {:induction false} CacheIgnoresParsed(x: Option<seq<string>>, y: Option<seq<string>>,
                                               cache: map<string, string>, visits: seq<Visit>)
    ensures RunFrom(State(x, cache), visits).cache == RunFrom(State(y, cache), visits).cache
    decreases |visits|
  {
    if visits != [] {
      CacheIgnoresParsed(x, y, cache, visits[..|visits| - 1]);
    }
  }

  function Sites(visits: seq<Visit>): set<string> {
    set i | 0 <= i < |visits| :: visits[i].site
  }

  /** The loop only ever adds cache entries for the sites it visits. */
  lemma {:induction false} CacheKeysFromSites(start: State, visits: seq<Visit>)
    ensures RunFrom(start, visits).cache.Keys <= start.cache.Keys + Sites(visits)
    decreases |visits|
  {
    if visits != [] {
      var init := visits[..|visits| - 1];
      CacheKeysFromSites(start, init);
      assert Sites(init) <= Sites(visits) by {
        forall s | s in Sites(init) ensures s in Sites(visits) {
          var i :| 0 <= i < |init| && init[i].site == s;
          assert visits[i].site == s;
        }
      }
      assert visits[|visits| - 1].site in Sites(visits);
    }
  }

  /** The article of every visit that fetched, read its cache without error and extracted. */
  function Extractable(visits: seq<Visit>): seq<Article>
    decreases |visits|
  {
    if visits == [] then []
    else
      var v := visits[|visits| - 1];
      Extractable(visits[..|visits| - 1])
        + if v.payload.Some? && !v.cacheFault && v.extracted.Some? then [v.extracted.value] else []
  }

  /**
   * Starting from an empty cache (the cache directory just cleared) and with
   * distinct site names (the keys of the configuration mapping), every first
   * check finds no file, so every feed that is fetched and extracts contributes.
   */
  lemma {:induction false} EmptyCacheCollectsAll(x: Option<seq<string>>, visits: seq<Visit>)
    requires forall i, j :: 0 <= i < j < |visits| ==> visits[i].site != visits[j].site
    ensures Collected(State(x, map[]), visits) == Extractable(visits)
    decreases |visits|
  {
    if visits != [] {
      var init := visits[..|visits| - 1];
      var v := visits[|visits| - 1];
      EmptyCacheCollectsAll(x, init);
      CacheKeysFromSites(State(x, map[]), init);
      assert v.site !in Sites(init);
      assert v.site !in RunFrom(State(x, map[]), init).cache;
    }
  }

  /** The Python list `parsed`, appended to in place by getRSS. */
  class ParsedList {
    var items: seq<string>

    constructor (items: seq<string>)
      ensures this.items == items
    {
      this.items := items;
    }

    method Append(x: string)
      modifies this
      ensures items == old(items) + [x]
    {
      items := items + [x];
    }

    /** del parsed[0:3]: drops the first three entries, or all of a shorter list. */
    method DeleteFirstThree()
      modifies this
      ensures items == if |old(items)| <= 3 then [] else old(items)[3..]
    {
      items := if |items| <= 3 then [] else items[3..];
    }
  }

  /** The value of the `parsed` variable: None for Python's None. */
  function Contents(p: ParsedList?): Option<seq<string>>
    reads p
  {
    if p == null then None else Some(p.items)
  }
}
