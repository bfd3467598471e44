/**
 * Version 0.2 of the script (main.py): the cache directory is cleared at
 * start, every field is passed through html2text, the edition on the
 * masthead is always 1, and createPDF lays out the whole list, leading
 * empty triple included, with no placeholder.
 */
module WatchmanV02 {
  import opened Wrappers
  import opened Dates
  import opened FeedCache
  import opened Feeds
  import opened Layout
  import opened Pipeline
  import opened EditionCounter
  import V1 = WatchmanV1

  /** A configured feed: its name, its date format (as a parser) and what fetching it gives. */
  datatype Site = Site(name: string, parseDate: string -> Option<CalendarDate>, feed: Feed)

  /**
   * The extraction half of getRSS: content, title, author and date looked up
   * on the first article, the date reformatted into the byline, and each of
   * title, byline and content passed through `handle` (html2text's handle
   * with links and emphasis ignored). None where any lookup or the date
   * parse raises.
   */
  function Extract(parseDate: string -> Option<CalendarDate>, item: Option<Item>, handle: string -> string): (a: Option<Article>)
    ensures a.Some? <==>
      && item.Some?
      && item.value.content.Some? && item.value.title.Some? && item.value.author.Some?
      && item.value.publishDate.Some? && parseDate(item.value.publishDate.value).Some?
    ensures a.Some? ==> a.value == Article(
      handle(item.value.title.value),
      handle(Details(item.value.author.value, parseDate(item.value.publishDate.value).value)),
      handle(item.value.content.value))
  {
    match item
    case None => None
    case Some(article) =>
      if article.content.None? || article.title.None? || article.author.None? || article.publishDate.None? then None
      else
        match parseDate(article.publishDate.value)
        case Some(date) =>
          var details := Details(article.author.value, date);
          Some(Article(handle(article.title.value), handle(details), handle(article.content.value)))
        case None => None
  }

  /**
   * With `handle` doing nothing, v0.2 extracts what v1.0 extracts for a feed
   * whose author is taken from the article and whose body is the inline
   * content with nothing stripped.
   */
  lemma ExtractAsV1(parseDate: string -> Option<CalendarDate>, item: Option<Item>,
                    linkedBody: string -> Option<string>, handle: string -> string)
    requires forall t :: handle(t) == t
    ensures Extract(parseDate, item, handle)
         == V1.Extract(V1.Rules(true, "", true, parseDate, linkedBody), item, handle)
  {
    if item.Some? {
      var rules := V1.Rules(true, "", true, parseDate, linkedBody);
      assert V1.Body(rules, item.value, handle) == if item.value.content.None? then None else Some(item.value.content.value);
    }
  }

  function VisitOf(site: Site, handle: string -> string): Visit {
    Visit(site.name, site.feed.payload, site.feed.cacheFault, Extract(site.parseDate, site.feed.item, handle))
  }

  function Visits(config: seq<Site>, handle: string -> string): (vs: seq<Visit>)
    ensures |vs| == |config|
    ensures forall i :: 0 <= i < |config| ==> vs[i].site == config[i].name
  {
    seq(|config|, i requires 0 <= i < |config| => VisitOf(config[i], handle))
  }

  /**
   * getRSS(parsed, site, config): fetch, check the cache, save the new
   * payload, extract, then append the three fields to `parsed` in place;
   * None when anything raises.
   */
  method GetRSS(parsed: ParsedList?, site: Site, cache: Cache, handle: string -> string) returns (r: ParsedList?)
    modifies parsed, cache
    ensures r == null || r == parsed
    ensures r == null && parsed != null ==> parsed.items == old(parsed.items)
    ensures State(Contents(r), cache.entries)
         == Step(State(old(Contents(parsed)), old(cache.entries)), VisitOf(site, handle))
  {
    ghost var s := State(Contents(parsed), cache.entries);
    ghost var v := VisitOf(site, handle);
    if site.feed.payload.None? {
      assert Step(s, v) == State(None, s.cache);
      return null;  // requests.get or the XML parse raised
    }
    var soup := site.feed.payload.value;
    var newContent := cache.CheckCache(soup, site.name, site.feed.cacheFault);
    assert newContent == IsNew(s, v);
    if !newContent {
      assert Step(s, v) == s;
      return parsed;
    }
    cache.SaveCache(soup, site.name);
    var article := Extract(site.parseDate, site.feed.item, handle);
    if article.None? || parsed == null {
      assert Step(s, v) == State(None, cache.entries);
      return null;  // a lookup or the date parse raised, or parsed is None
    }
    var a := article.value;
    parsed.Append(a.title);
    parsed.Append(a.details);
    parsed.Append(a.content);
    r := parsed;
    assert Contribution(s, v) == [a];
    assert Flatten([a]) == [a.title, a.details, a.content] by {
      assert [a][..0] == [];
    }
    assert s.parsed == Some(old(parsed.items));
    assert cache.entries == Store(s.cache, site.name, soup);
    assert Step(s, v) == State(Some(old(parsed.items) + [a.title, a.details, a.content]), cache.entries);
    assert parsed.items == old(parsed.items) + [a.title, a.details, a.content];
  }

  /** The main loop: `parsed = getRSS(parsed, site, config[site])` for each site, from the sentinel. */
  method RunFeeds(config: seq<Site>, cache: Cache, handle: string -> string) returns (parsed: ParsedList?)
    modifies cache
    ensures parsed == null || fresh(parsed)
    ensures State(Contents(parsed), cache.entries)
         == RunFrom(State(Some(Sentinel), old(cache.entries)), Visits(config, handle))
    ensures parsed != null ==> |parsed.items| % 3 == 0
  {
    ghost var start := State(Some(Sentinel), cache.entries);
    ghost var visits := Visits(config, handle);
    parsed := new ParsedList(Sentinel);
    for i := 0 to |config|
      invariant parsed == null || fresh(parsed)
      invariant State(Contents(parsed), cache.entries) == RunFrom(start, visits[..i])
      invariant parsed != null ==> |parsed.items| % 3 == 0
    {
      assert visits[..i + 1][..i] == visits[..i];
      assert RunFrom(start, visits[..i + 1]) == Step(RunFrom(start, visits[..i]), visits[i]);
      parsed := GetRSS(parsed, config[i], cache, handle);
      RunKeepsTriples(start, visits[..i + 1]);
    }
    assert visits[..|config|] == visits;
  }

  /**
   * createPDF(parsed): every triple of the list, the leading one included,
   * becomes a title, a byline and a body paragraph. None where `parsed` is
   * None or its length is not a multiple of three.
   */
  method CreatePDF(parsed: ParsedList?, today: CalendarDate) returns (r: Option<Pdf>)
    ensures r.Some? <==> parsed != null && |parsed.items| % 3 == 0
    ensures r.Some? ==> r.value == Pdf(OutputDirectory, FileName(today), Paragraphs(parsed.items))
  {
    if parsed == null {
      return None;  // len(None) raises
    }
    var laid := LayOut(parsed.items);
    if laid.None? {
      return None;  // parsed[counter+1] or parsed[counter+2] raised IndexError
    }
    r := Some(Pdf(OutputDirectory, FileName(today), laid.value));
  }

  /** The leading triple of empty strings lays out as an article with empty fields. */
  lemma SentinelIsEmptyArticle(articles: seq<Article>)
    ensures Sentinel + Flatten(articles) == Flatten([Article("", "", "")] + articles)
  {
    FlattenAppend([Article("", "", "")], articles);
    assert [Article("", "", "")][..0] == [];
  }

  /**
   * createPDF on the loop's result, and the masthead PDFTitle draws: given
   * the sentinel followed by the collected articles, the document shows one
   * empty article and then exactly those articles, under edition 1.
   */
  method Compose(parsed: ParsedList?, ghost articles: seq<Article>, today: CalendarDate, longDate: string)
    returns (r: Option<V1.Issue>)
    requires parsed != null ==> parsed.items == Sentinel + Flatten(articles)
    ensures r.Some? <==> parsed != null
    ensures r.Some? ==> r.value == V1.Issue(
      Pdf(OutputDirectory, FileName(today), Paragraphs(Flatten([Article("", "", "")] + articles))),
      Masthead(longDate, "1"))
  {
    if parsed != null {
      SentinelIsEmptyArticle(articles);
      MultipleOfThree(3, |articles|);
    }
    var pdf := CreatePDF(parsed, today);
    if pdf.None? {
      return None;  // `directory, filename = createPDF(parsed)` cannot unpack None
    }
    r := Some(V1.Issue(pdf.value, Masthead(longDate, "1")));
  }

  /**
   * One run of the script up to the document: clear the cache, run every
   * feed from the sentinel, lay out the whole list. With distinct site names
   * (the keys of the configuration mapping) every feed that is fetched, reads
   * its cache without error and extracts shows up, after one empty article.
   */
  method Watchman(cache: Cache, config: seq<Site>, today: CalendarDate, longDate: string,
                  handle: string -> string) returns (r: Option<V1.Issue>)
    modifies cache
    ensures var final := RunFrom(State(Some(Sentinel), map[]), Visits(config, handle));
      && cache.entries == final.cache
      && (r.Some? <==> final.parsed.Some?)
      && (r.Some? ==> r.value.masthead == Masthead(longDate, "1"))
      && (r.Some? ==> r.value.pdf == Pdf(OutputDirectory, FileName(today),
             Paragraphs(Flatten([Article("", "", "")] + Collected(State(Some(Sentinel), map[]), Visits(config, handle))))))
    ensures (forall i, j :: 0 <= i < j < |config| ==> config[i].name != config[j].name) ==>
      r.Some? ==> r.value.pdf.blocks == Paragraphs(Flatten([Article("", "", "")] + Extractable(Visits(config, handle))))
  {
    cache.ClearCache();
    ghost var start := State(Some(Sentinel), cache.entries);
    ghost var visits := Visits(config, handle);
    var parsed := RunFeeds(config, cache, handle);
    if parsed != null {
      RunCollects(start, visits);
    }
    r := Compose(parsed, Collected(start, visits), today, longDate);
    if forall i, j :: 0 <= i < j < |config| ==> config[i].name != config[j].name {
      EmptyCacheCollectsAll(Some(Sentinel), visits);
    }
  }
}
