/**
 * What the markup parser yields for one feed, and the article record the
 * script extracts from it. The script keeps articles as a flat list of
 * strings, three per article; Flatten is that encoding.
 */
module Feeds {
  import opened Wrappers
  import opened Dates
  import opened Decimal

  /**
   * The `.text` of each selector looked up on the latest article node; None
   * where `find` found nothing (so `.text` raises).
   */
  datatype Item = Item(
    title: Option<string>,
    author: Option<string>,
    publishDate: Option<string>,
    content: Option<string>)

  /** One fetch of a configured feed. */
  datatype Feed = Feed(
    payload: Option<string>,  // str(soup) of the fetched feed; None when the fetch or the XML parse raised
    cacheFault: bool,         // reading this site's cache file raises an error other than "no such file"
    item: Option<Item>)       // soup.find(config['article']); None when there is no such node

  datatype Article = Article(title: string, details: string, content: string)

  /** The flat list encoding: title, details, content of each article in turn. */
  function Flatten(articles: seq<Article>): (r: seq<string>)
    ensures |r| == 3 * |articles|
    decreases |articles|
  {
    if articles == [] then []
    else
      var last := articles[|articles| - 1];
      Flatten(articles[..|articles| - 1]) + [last.title, last.details, last.content]
  }

  /** Entries 3j, 3j+1 and 3j+2 of the flat list are the title, details and content of article j. */
  lemma {:induction false} FlattenIndex(articles: seq<Article>, j: nat)
    requires j < |articles|
    ensures Flatten(articles)[3 * j] == articles[j].title
    ensures Flatten(articles)[3 * j + 1] == articles[j].details
    ensures Flatten(articles)[3 * j + 2] == articles[j].content
    decreases |articles|
  {
    var init := articles[..|articles| - 1];
    if j < |init| {
      FlattenIndex(init, j);
      assert articles[j] == init[j];
    }
  }

  /** Flattening distributes over concatenation: articles keep their order in the flat list. */
  lemma {:induction false} FlattenAppend(a: seq<Article>, b: seq<Article>)
    ensures Flatten(a + b) == Flatten(a) + Flatten(b)
    decreases |b|
  {
    if b == [] {
      assert a + b == a;
    } else {
      var init := b[..|b| - 1];
      FlattenAppend(a, init);
      assert (a + b)[..|a + b| - 1] == a + init;
    }
  }

  /** The byline: author + ', ' + the publish date as d/m/yy. */
  function Details(author: string, date: CalendarDate): (r: string)
    ensures |author| + 8 <= |r| <= |author| + 10
    ensures r[..|author|] == author
    ensures AllDigits(r[|r| - 2..]) && Value(r[|r| - 2..]) == date.year % 100
  {
    var short := ShortDate(date);
    var r := author + ", " + short;
    assert r[|r| - 2..] == short[|short| - 2..];
    r
  }

  /** A byline starts with the author and ends with a date that reads back as (day, month, yy). */
  lemma DetailsShowAuthorAndDate(author: string, date: CalendarDate)
    ensures Details(author, date)[..|author| + 2] == author + ", "
    ensures ParseShortDate(Details(author, date)[|author| + 2..]) == Some((date.day, date.month, date.year % 100))
  {
    ShortDateRoundTrip(date);
    assert Details(author, date)[|author| + 2..] == ShortDate(date);
  }

  /** An author "Jane" and 1 April 2023 give the byline "Jane, 1/4/23". */
  lemma DetailsExample()
    ensures Details("Jane", Date(1, 4, 2023)) == "Jane, 1/4/23"
  {
    ShortDateExample();
  }
}
