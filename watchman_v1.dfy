/**
 * Version 1.0 of the script (build/main.py): edition counter, persistent
 * feed cache, per-feed extraction with an inline or linked body and an
 * optional fixed author, and a document that drops the leading empty triple
 * or shows a placeholder when nothing is new.
 */
module WatchmanV1 {
  import opened Wrappers
  import opened Dates
  import opened FeedCache
  import opened Feeds
  import opened Layout
  import opened Pipeline
  import opened EditionCounter

  /** The extraction rules of one configured feed. */
  datatype Rules = Rules(
    authorIncluded: bool,                       // config['authorIncluded']
    author: string,                             // config['author']: a selector, or the author itself
    fulltext: bool,                             // config['fulltext']
    parseDate: string -> Option<CalendarDate>,  // datetime.strptime with config['dateFormat']; None where it raises
    linkedBody: string -> Option<string>)       // fetch a link, find config['tag'] with config['id']; None where that raises

  datatype Site = Site(name: string, rules: Rules, feed: Feed)

  /**
   * The body text: the content node's text with its markup removed
   * (`plainText` is BeautifulSoup's get_text), or the text found on the
   * page the content node links to.
   */
  function Body(rules: Rules, article: Item, plainText: string -> string): Option<string> {
    match article.content
    case None => None
    case Some(text) => if rules.fulltext then Some(plainText(text)) else rules.linkedBody(text)
  }

  /** The article's author field, or the configured author when authorIncluded is false. */
  function Author(rules: Rules, article: Item): Option<string> {
    if rules.authorIncluded then article.author else Some(rules.author)
  }

  /**
   * The extraction half of getRSS (after the cache has been saved): an
   * article exactly when every lookup succeeds, the date parses and the
   * body can be obtained; None where any of them raises.
   */
  function Extract(rules: Rules, item: Option<Item>, plainText: string -> string): (a: Option<Article>)
    ensures a.Some? <==>
      && item.Some?
      && Body(rules, item.value, plainText).Some?
      && item.value.title.Some?
      && Author(rules, item.value).Some?
      && item.value.publishDate.Some?
      && rules.parseDate(item.value.publishDate.value).Some?
    ensures a.Some? ==>
      && a.value.title == item.value.title.value
      && a.value.content == Body(rules, item.value, plainText).value
      && a.value.details == Details(Author(rules, item.value).value, rules.parseDate(item.value.publishDate.value).value)
  {
    match item
    case None => None
    case Some(article) =>
      var body, author := Body(rules, article, plainText), Author(rules, article);
      if body.None? || article.title.None? || author.None? || article.publishDate.None? then None
      else
        match rules.parseDate(article.publishDate.value)
        case Some(date) => Some(Article(article.title.value, Details(author.value, date), body.value))
        case None => None
  }

  /**
   * The byline of an extracted article names the configured author when
   * authorIncluded is false and the article's own author otherwise, then
   * shows the publish date as day/month/two-digit year.
   */
  lemma ExtractedByline(rules: Rules, article: Item, plainText: string -> string)
    requires Extract(rules, Some(article), plainText).Some?
    ensures var details := Extract(rules, Some(article), plainText).value.details;
      var author := if rules.authorIncluded then article.author.value else rules.author;
      var date := rules.parseDate(article.publishDate.value).value;
      && details[..|author| + 2] == author + ", "
      && ParseShortDate(details[|author| + 2..]) == Some((date.day, date.month, date.year % 100))
  {
    var author := if rules.authorIncluded then article.author.value else rules.author;
    var date := rules.parseDate(article.publishDate.value).value;
    assert Author(rules, article) == Some(author);
    assert Extract(rules, Some(article), plainText).value.details == Details(author, date);
    DetailsShowAuthorAndDate(author, date);
  }

  function VisitOf(site: Site, plainText: string -> string): Visit {
    Visit(site.name, site.feed.payload, site.feed.cacheFault, Extract(site.rules, site.feed.item, plainText))
  }

  function Visits(config: seq<Site>, plainText: string -> string): (vs: seq<Visit>)
    ensures |vs| == |config|
  {
    seq(|config|, i requires 0 <= i < |config| => VisitOf(config[i], plainText))
  }

  /**
   * getRSS(parsed, site, config): fetch, check the cache, save the new
   * payload before extracting anything, then append title, details and
   * content to `parsed` in place; None when anything raises.
   */
  method GetRSS(parsed: ParsedList?, site: Site, cache: Cache, plainText: string -> string) returns (r: ParsedList?)
    modifies parsed, cache
    ensures r == null || r == parsed
    ensures r == null && parsed != null ==> parsed.items == old(parsed.items)
    ensures State(Contents(r), cache.entries)
         == Step(State(old(Contents(parsed)), old(cache.entries)), VisitOf(site, plainText))
  {
    ghost var s := State(Contents(parsed), cache.entries);
    ghost var v := VisitOf(site, plainText);
    if site.feed.payload.None? {
      assert Step(s, v) == State(None, s.cache);
      return null;  // requests.get or the XML parse raised
    }
    var soup := site.feed.payload.value;
    var newContent := cache.CheckCache(soup, site.name, site.feed.cacheFault);
    assert newContent == IsNew(s, v);
    if !newContent {
      assert Step(s, v) == s;
      return parsed;
    }
    cache.SaveCache(soup, site.name);
    var article := Extract(site.rules, site.feed.item, plainText);
    if article.None? || parsed == null {
      assert Step(s, v) == State(None, cache.entries);
      return null;  // a lookup, the date parse or the linked fetch raised, or parsed is None
    }
    var a := article.value;
    parsed.Append(a.title);
    parsed.Append(a.details);
    parsed.Append(a.content);
    r := parsed;
    assert Contribution(s, v) == [a];
    assert Flatten([a]) == [a.title, a.details, a.content] by {
      assert [a][..0] == [];
    }
    assert s.parsed == Some(old(parsed.items));
    assert cache.entries == Store(s.cache, site.name, soup);
    assert Step(s, v) == State(Some(old(parsed.items) + [a.title, a.details, a.content]), cache.entries);
    assert parsed.items == old(parsed.items) + [a.title, a.details, a.content];
  }

  /** The main loop: `parsed = getRSS(parsed, site, config[site])` for each site, from the sentinel. */
  method RunFeeds(config: seq<Site>, cache: Cache, plainText: string -> string) returns (parsed: ParsedList?)
    modifies cache
    ensures parsed == null || fresh(parsed)
    ensures State(Contents(parsed), cache.entries)
         == RunFrom(State(Some(Sentinel), old(cache.entries)), Visits(config, plainText))
    ensures parsed != null ==> |parsed.items| % 3 == 0
  {
    ghost var start := State(Some(Sentinel), cache.entries);
    ghost var visits := Visits(config, plainText);
    parsed := new ParsedList(Sentinel);
    for i := 0 to |config|
      invariant parsed == null || fresh(parsed)
      invariant State(Contents(parsed), cache.entries) == RunFrom(start, visits[..i])
      invariant parsed != null ==> |parsed.items| % 3 == 0
    {
      assert visits[..i + 1][..i] == visits[..i];
      assert RunFrom(start, visits[..i + 1]) == Step(RunFrom(start, visits[..i]), visits[i]);
      parsed := GetRSS(parsed, config[i], cache, plainText);
      RunKeepsTriples(start, visits[..i + 1]);
    }
    assert visits[..|config|] == visits;
  }

  /**
   * createPDF(parsed): the paragraph list for doc.build and the file name.
   * Exactly three entries give the placeholder alone; otherwise the first
   * three entries are deleted in place and each remaining triple becomes a
   * title, a byline and a body paragraph.
   */
  method CreatePDF(parsed: ParsedList?, today: CalendarDate) returns (r: Option<Pdf>)
    modifies parsed
    ensures parsed == null ==> r.None?
    ensures parsed != null && |old(parsed.items)| == 3 ==>
      r == Some(Pdf(OutputDirectory, FileName(today), [Placeholder])) && parsed.items == old(parsed.items)
    ensures parsed != null && |old(parsed.items)| != 3 ==>
      && parsed.items == (if |old(parsed.items)| <= 3 then [] else old(parsed.items)[3..])
      && (r.Some? <==> |parsed.items| % 3 == 0)
      && (r.Some? ==> r.value == Pdf(OutputDirectory, FileName(today), Paragraphs(parsed.items)))
  {
    if parsed == null {
      return None;  // len(None) raises
    }
    var directory := OutputDirectory;
    var filename := FileName(today);
    var paras: seq<Block>;
    if |parsed.items| == 3 {
      paras := [Placeholder];
    } else {
      parsed.DeleteFirstThree();
      var laid := LayOut(parsed.items);
      if laid.None? {
        return None;  // parsed[counter+1] or parsed[counter+2] raised IndexError
      }
      paras := laid.value;
    }
    r := Some(Pdf(directory, filename, paras));
  }

  /** The document handed to delivery, and the masthead drawn on each of its pages. */
  datatype Issue = Issue(pdf: Pdf, masthead: string)

  /** The document an article list gives: the placeholder alone when it is empty. */
  function Document(articles: seq<Article>): seq<Block> {
    if articles == [] then [Placeholder] else Paragraphs(Flatten(articles))
  }

  /**
   * createPDF on the loop's result, and the masthead PDFTitle draws: given
   * the sentinel followed by the collected articles, the document shows
   * exactly those articles.
   */
  method Compose(parsed: ParsedList?, ghost articles: seq<Article>, today: CalendarDate,
                 longDate: string, edition: string) returns (r: Option<Issue>)
    requires parsed != null ==> parsed.items == Sentinel + Flatten(articles)
    modifies parsed
    ensures r.Some? <==> parsed != null
    ensures r.Some? ==> r.value == Issue(Pdf(OutputDirectory, FileName(today), Document(articles)), Masthead(longDate, edition))
  {
    if parsed != null {
      assert parsed.items[3..] == Flatten(articles);
      MultipleOfThree(0, |articles|);
    }
    var pdf := CreatePDF(parsed, today);
    if pdf.None? {
      return None;  // `directory, filename = createPDF(parsed)` cannot unpack None
    }
    r := Some(Issue(pdf.value, Masthead(longDate, edition)));
  }

  /**
   * The rest of a run once the edition has been read: every feed in
   * configuration order, then the document with `edition` on the masthead.
   * None where a feed has turned the list into None and the script stops.
   */
  method MakeIssue(cache: Cache, config: seq<Site>, today: CalendarDate, longDate: string,
                   edition: string, plainText: string -> string) returns (r: Option<Issue>)
    modifies cache
    ensures var start := State(Some(Sentinel), old(cache.entries));
      var final := RunFrom(start, Visits(config, plainText));
      && cache.entries == final.cache
      && (r.Some? <==> final.parsed.Some?)
      && (r.Some? ==> r.value == Issue(Pdf(OutputDirectory, FileName(today),
                                           Document(Collected(start, Visits(config, plainText)))),
                                       Masthead(longDate, edition)))
  {
    ghost var start := State(Some(Sentinel), cache.entries);
    ghost var visits := Visits(config, plainText);
    var parsed := RunFeeds(config, cache, plainText);
    if parsed != null {
      RunCollects(start, visits);
    }
    r := Compose(parsed, Collected(start, visits), today, longDate, edition);
  }

  /**
   * One run of the script up to the document: advance the edition counter,
   * then MakeIssue with the edition text read before the increment. None
   * where the edition file does not hold an integer and the script stops.
   */
  method Watchman(edition: EditionFile, cache: Cache, config: seq<Site>, today: CalendarDate,
                  longDate: string, plainText: string -> string) returns (r: Option<Issue>)
    modifies edition, cache
    ensures ParseInt(old(edition.text)).None? ==>
      r.None? && edition.text == old(edition.text) && cache.entries == old(cache.entries)
    ensures ParseInt(old(edition.text)).Some? ==>
      && edition.text == IntToString(ParseInt(old(edition.text)).value + 1)
      && cache.entries == RunFrom(State(Some(Sentinel), old(cache.entries)), Visits(config, plainText)).cache
      && (r.Some? <==> RunFrom(State(Some(Sentinel), old(cache.entries)), Visits(config, plainText)).parsed.Some?)
      && (r.Some? ==> r.value.masthead == Masthead(longDate, old(edition.text)))
      && (r.Some? ==> r.value.pdf == Pdf(OutputDirectory, FileName(today),
                       Document(Collected(State(Some(Sentinel), old(cache.entries)), Visits(config, plainText)))))
  {
    var currentEdition := edition.Advance();
    if currentEdition.None? {
      return None;  // int() raised on the edition file
    }
    r := MakeIssue(cache, config, today, longDate, currentEdition.value, plainText);
  }
}
