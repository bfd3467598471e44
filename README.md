# The Watchman, modelled in Dafny

The Watchman is a batch script that builds a newspaper-style PDF from RSS
feeds and mails it to an e-reader. It comes in two versions:
`build/main.py` (v1.0) and `main.py` (v0.2). Each run does the following:

- v1.0 first advances an edition counter kept in `edition.txt`.
- The script then starts from the list `["", "", ""]` and calls `getRSS`
  on every configured feed in order. `getRSS` fetches the feed and compares
  its serialized text with the copy kept in `cache/<site>.cache`. When the
  text is new, it saves it and appends the latest article's title, byline
  ("author, d/m/yy") and body to the flat list.
- `createPDF` turns that list into title, byline and body paragraphs in a
  file named `DD_MM_YYYY.pdf`, under a masthead with the date, the edition
  and a tagline.

This project models that core:

- the feed cache;
- the per-feed step and the loop that folds it over the configuration;
- the paragraph list and the file name;
- the edition counter and the masthead text.

Each version of the script has its own module. The shared parts sit in
modules of their own:

| module | what it holds |
|---|---|
| `Wrappers` | the `Option` type |
| `Decimal` | digit strings: rendering and reading of naturals, zero padding |
| `Dates` | calendar dates; the `%-d/%-m/%y` and `%d_%m_%Y.pdf` renderings, each with a reader that recovers the fields |
| `FeedCache` | the cache as a map from site name to stored text; class `Cache` with `CheckCache`, `SaveCache`, `ClearCache` |
| `Feeds` | what a fetched feed yields, the article record, the flat three-per-article encoding, the byline |
| `Layout` | paragraph styles; the `while counter < len(parsed)` loop (`LayOut`) and its specification `Paragraphs` |
| `Pipeline` | one `getRSS` call as a function on (list, cache) (`Step`); the loop as a fold (`RunFrom`); the articles it collects; class `ParsedList` for the Python list that is changed in place |
| `EditionCounter` | Python's `int()`/`str()` on the edition text; class `EditionFile`; the masthead line |
| `WatchmanV1` | v1.0: extraction rules, `getRSS`, the main loop, `createPDF`, one run |
| `WatchmanV02` | v0.2: extraction through html2text, `getRSS`, the main loop, `createPDF`, one run after clearing the cache |

Python's `None` for `parsed` is a null `ParsedList` reference inside the
methods, and `Option.None` in the functional specification. An exception
that `getRSS` or `createPDF` catches becomes `None`, as in the script.

## Model

| member | source | states |
|---|---|---|
| FeedCache.Cache.CheckCache | build/main.py:229-251 | true exactly when the read succeeds and either there is no entry for the site or the stored text differs from the new payload; false on equal text and on any other read error (v0.2, main.py:197-219, decides the same way) |
| FeedCache.Store | build/main.py:254-257 | saving gives the site the new payload and keeps every other entry; a later check of the same payload reports no change |
| FeedCache.StoreIsolated | main.py:221-224 | saving one site's entry leaves every other site's cache read exactly as it was |
| FeedCache.Cache.SaveCache | build/main.py:254-257 | the new entries are the old ones with only this site's entry overwritten |
| FeedCache.Cache.ClearCache | main.py:226-228 | removing and recreating the cache directory leaves no entries |
| Decimal.NatToString | build/main.py:205 | a number renders as non-empty digits with no leading zero and reads back as that number |
| Decimal.NatToStringCanonical | build/main.py:205 | the unpadded rendering reads back as the number it renders |
| Decimal.ZeroPad | build/main.py:119 | padded to a width the number fits in, the digits have exactly that width and still read back as the number |
| Dates.ShortDate | build/main.py:205 | `strftime('%-d/%-m/%y')` gives 6 to 8 characters ending in '/' and the year modulo 100 on two digits; `Dates.ShortDateRoundTrip` reads day and month back as well (v0.2 renders the same way, main.py:177) |
| Dates.ShortDateRoundTrip | build/main.py:203-205 | the d/m/yy rendering gives back day, month and year modulo 100 |
| Dates.ShortDateExample | build/main.py:205 | 1 April 2023 renders as "1/4/23" |
| Dates.FileName | build/main.py:117-119 | `strftime('%d_%m_%Y') + '.pdf'` gives 14 characters: the day at positions 0-1, '_', the month at 3-4, '_', the year at 6-9, then ".pdf" |
| Dates.FileNameRoundTrip | build/main.py:117-119 | the file name is 14 characters and names exactly the day it was made for (v0.2 names it the same way, main.py:114) |
| Feeds.FlattenIndex | build/main.py:213-215 | article j sits at positions 3j, 3j+1 and 3j+2 of the flat list as title, byline, body |
| Feeds.FlattenAppend | build/main.py:279-280 | articles appended by later feeds follow the earlier ones in the flat list |
| Feeds.Details | build/main.py:207 | `author + ', ' + publishDate` opens with the author, is 8 to 10 characters longer than it, and ends with the publish year modulo 100 on two digits |
| Feeds.DetailsShowAuthorAndDate | build/main.py:207 | a byline starts with the author and ", " and ends with a date that reads back as the publish date |
| Feeds.DetailsExample | build/main.py:203-207 | "Jane" and 1 April 2023 give "Jane, 1/4/23" |
| Layout.LayOut | build/main.py:138-145 | the paragraph loop succeeds exactly when the length is a multiple of 3 (otherwise `parsed[counter+1]`/`[counter+2]` raises), and then gives one paragraph per string with its style taken from its position (v0.2 runs the same loop, main.py:124-132) |
| Layout.ArticleBlocks | build/main.py:138-145 | laying out k articles gives 3k paragraphs: for each article in order, its title in the title style, its byline in the author style and its body in the body style, at positions 3j, 3j+1 and 3j+2 |
| Pipeline.RunFrom | build/main.py:279-280 | the loop never drops a cache entry, and a list that survives it still starts with the list the loop began with |
| Pipeline.Step | build/main.py:171-226 | a failed fetch gives None with the cache kept; unchanged content leaves list and cache as they were; new content is cached before extraction, so the cache is written even when extraction then fails; the list survives exactly when it was a list, the fetch succeeded and, if the content is new, the article extracted; a surviving list is the old list followed by the new article's three fields |
| Pipeline.RunCollects | build/main.py:277-280 | after the loop, a surviving list is the starting list followed by the fields of every collected article, in feed order |
| Pipeline.RunKeepsTriples | build/main.py:278-280 | from a list whose length is a multiple of 3, the list keeps its start and a length that is a multiple of 3 after every feed, because each feed appends a whole triple |
| Pipeline.SentinelThenArticles | build/main.py:278-280 | from the sentinel, the final list has exactly three entries precisely when no article was collected, and after them come the collected articles' fields |
| Pipeline.RunSurvives | build/main.py:277-280 | the list survives the whole loop exactly when it started as a list and every feed, in the state the loop had reached, was fetched and, when new, extracted; a feed that fails goes through `getRSS`'s `except` (lines 222-226) |
| Pipeline.FailedFeedLosesList | build/main.py:222-226 | a single feed whose fetch raises, or whose new content does not extract, leaves no list at the end of the loop |
| Pipeline.BrokenFeedSinksIssue | build/main.py:277-280 | a failing first feed followed by a new, extractable second feed ends with no list, where the corrected loop keeps the second article |
| Pipeline.SkippingStep | build/main.py:222-226 | the corrected step keeps a list whenever it had one and appends exactly the feed's article, nothing when the feed fails |
| Pipeline.SkippingStepMatchesScript | build/main.py:178-182 | the corrected step writes the cache as the script's step does, and agrees with it entirely whenever the script's step keeps its list |
| Pipeline.RunSkippingKeepsList | build/main.py:277-280 | the corrected loop always ends with the starting list followed by every gathered article, in feed order |
| Pipeline.RunSkippingCache | build/main.py:254-257 | the corrected loop leaves the same cache as the script's loop |
| Pipeline.RunSkippingAgrees | build/main.py:277-280 | whenever the script's loop keeps its list, the corrected loop gives the same list and cache |
| Pipeline.NoneIsFinal | build/main.py:223-226 | once a feed has turned the list into None, every later feed leaves it None |
| Pipeline.CacheIgnoresParsed | build/main.py:178-182 | the cache the loop leaves does not depend on the list, so feeds after a failure still save new content |
| Pipeline.CacheKeysFromSites | build/main.py:254-257 | the loop only adds cache entries for the sites it visits |
| Pipeline.EmptyCacheCollectsAll | main.py:241-245 | from an empty cache and with distinct site names, the loop collects the article of every feed that is fetched, reads its cache without error and extracts |
| Pipeline.ParsedList.Append | build/main.py:213-215 | `parsed.append(x)` adds x at the end and changes nothing else |
| Pipeline.ParsedList.DeleteFirstThree | build/main.py:137 | `del parsed[0:3]` drops the first three entries, or all of a shorter list |
| EditionCounter.ParseInt | build/main.py:9 | `int(currentEdition)` gives a number only when the text holds a decimal digit; otherwise it raises (None) |
| EditionCounter.IntToString | build/main.py:9-12 | `str(n)` has no surrounding whitespace and reads back under `int()` as the same number |
| EditionCounter.TrailingNewlineIgnored | build/main.py:8-9 | an edition file holding the number followed by a newline still reads back as that number |
| EditionCounter.EditionFile.Advance | build/main.py:7-12 | when the text is an integer n, returns the text as read and rewrites the file as str(n+1); otherwise stops with the file unchanged |
| EditionCounter.Masthead | build/main.py:164-165 | the masthead opens with the long date, shows the edition text after the separator and "Edition ", and closes with the separator and the tagline (v0.2 always shows "Edition 1", main.py:151) |
| EditionCounter.MastheadShowsOneEdition | build/main.py:164-165 | on the same day, two mastheads are equal only when they show the same edition text |
| WatchmanV1.Extract | build/main.py:184-207 | an article exactly when the title, the author (if taken from the feed), the date and the body (inline with markup stripped, or fetched from the linked page) are all found and the date parses; its fields are then the title, `author + ", " + d/m/yy`, and the body |
| WatchmanV1.ExtractedByline | build/main.py:198-207 | the byline names the configured author when `authorIncluded` is false and the article's author otherwise, followed by the publish date as d/m/yy |
| WatchmanV1.GetRSS | build/main.py:171-226 | the list and cache after the call are exactly what `Pipeline.Step` gives; the list returned is the one passed in (changed in place) or None, and when None is returned the list passed in is left as it was |
| WatchmanV1.RunFeeds | build/main.py:277-280 | a fresh sentinel list folded through every configured feed in order gives the fold's list and cache, with a length that is a multiple of 3 |
| WatchmanV1.CreatePDF | build/main.py:114-155 | None for a None list; exactly three entries give the placeholder paragraph alone; otherwise the first three entries are deleted in place and the rest are laid out when their count is a multiple of 3; the file is `pdfs/DD_MM_YYYY.pdf` |
| WatchmanV1.Compose | build/main.py:129-165 | from the sentinel plus collected articles, the document holds the placeholder alone when there are none and otherwise exactly the articles' paragraphs, under the masthead for the given edition |
| WatchmanV1.MakeIssue | build/main.py:277-282 | after all feeds, the cache is the fold's cache, and a document exists exactly when the list survived (by `Pipeline.RunSurvives`, exactly when no feed failed), showing the collected articles |
| WatchmanV1.Watchman | build/main.py:7-12 | a run stops with nothing changed when the edition text is not an integer; otherwise the edition is advanced, the cache and document are those of `MakeIssue`, and the masthead shows the edition text read before the increment |
| WatchmanV02.Extract | main.py:169-187 | an article exactly when content, title, author and date are found and the date parses; title, byline and content are each passed through html2text |
| WatchmanV02.ExtractAsV1 | main.py:171-179 | with html2text doing nothing, v0.2 extracts what v1.0 extracts for an inline feed whose author comes from the article |
| WatchmanV02.GetRSS | main.py:156-195 | the list and cache after the call are exactly what `Pipeline.Step` gives; when None is returned the list passed in is left as it was |
| WatchmanV02.RunFeeds | main.py:243-245 | the fold over every configured feed from a fresh sentinel list, with a length that is a multiple of 3 |
| WatchmanV02.CreatePDF | main.py:109-142 | a document exactly when the list is not None and its length is a multiple of 3; every string of the list, the leading empty triple included, becomes one paragraph; no placeholder and no deletion |
| WatchmanV02.SentinelIsEmptyArticle | main.py:243 | the starting triple lays out as an article whose fields are empty |
| WatchmanV02.Compose | main.py:145-153 | the document shows one empty article and then the collected articles, under "Edition 1" |
| WatchmanV02.Watchman | main.py:241-247 | after the cache is cleared, the run's cache is the fold's from empty; a document exists exactly when the list survived; with distinct site names it shows every feed that is fetched and extracts, after one empty article |

## Left out

- SMTP delivery (`login`, `generateEmail`, `sendEmail`) and the dotenv settings are network and environment plumbing. They are not modelled.
- Fetching (`requests.get`) and BeautifulSoup are inputs, not code. A fetched feed is given as its serialized text, or None when the fetch or XML parse raised, together with the optional `.text` of each selector on the first article node. v1.0's inline `get_text` and linked-page lookup are function parameters, as is v0.2's `html2text` `handle`.
- `datetime.strptime` with a configured format is a function parameter that gives a date or None. `date.today()` and the locale long date (`%A, %-d %B %Y`) are inputs. `today` gives the file name. The masthead's long date is a separate input that the model does not tie to `today`. The script itself reads the clock separately for the two, in `createPDF` (build/main.py:117) and in `PDFTitle` (build/main.py:158).
- Days per month are not checked: a date is any day 1-31 in month 1-12 of year 1-9999. `%Y` is modelled as four digits, which matches Python only for years from 1000 on.
- reportlab is left out: frames, fonts, sizes, page flow and `doc.build`. The model stops at the ordered list of (style, text) paragraphs and the path the document is written to. A `doc.build` failure is not modelled.
- Layout.LayOut: `Paragraph(text, style)` raises `ValueError` on text that is not valid reportlab markup (an unclosed `<b>`, say), and `createPDF` then returns None. This is not modelled. The "exactly when" of `Layout.LayOut`, `WatchmanV1.CreatePDF`, `WatchmanV02.CreatePDF`, `WatchmanV1.MakeIssue` and `WatchmanV02.Watchman` holds only for text that reportlab accepts.
- `loadConfig` (YAML) is not modelled. The configuration is the sequence of feeds in mapping order. Distinct site names are a premise of the one property that needs them.
- EditionCounter.ParseInt: models `int()` on ASCII whitespace, an optional sign and ASCII digits. It leaves out underscores between digits and non-ASCII digits and whitespace.
- Cache file I/O is a `map` from site name to text. A read that raises something other than "No such file or directory" is a per-feed input flag.
- FeedCache.Store: the map does not model three effects of the file. (1) Text mode turns a stored '\r' into '\n' on reading, so a feed whose serialized text contains `&#13;` is seen as changed on every run and its article is added again. (2) Entries are keyed by the site name, while the script keys them by the path `'cache/' + site + '.cache'`; site names that reach the same file, such as `a` and `./a`, or names differing only in case on a case-insensitive file system, share one entry in the script. (3) A failing `saveCache` write is not modelled. When `open(..., 'w')` fails, the old entry stays and `getRSS` returns None. When the open succeeds and the write then fails, the file is already truncated, so the entry is left empty or partial.
- The timestamped `print` logging is not modelled.
- The run methods of both versions model the loop as written, in which one failing feed leaves no document (see Findings). The corrected loop `Pipeline.RunSkipping` is proved beside it but not used by the run methods.
- WatchmanV1.CreatePDF: the list that `del parsed[0:3]` shortens is not used again after the call, so the model does not follow its aliasing any further.

## Findings

| source | as written | input that shows it | evidently intended | confidence | as-written member | corrected member |
|---|---|---|---|---|---|---|
| build/main.py:222-226 (also main.py:192-195) | `getRSS` returns None from its `except`; the loop passes that None to the next `getRSS`, whose `parsed.append` raises, so every later feed also gives None and `createPDF(None)` gives no document | two feeds: the first fetch raises, the second is new and extracts; the run ends with no list and no document | a failing feed contributes no article and the loop keeps the list for the feeds after it, so the document shows the second feed's article | high; not executed | Pipeline.BrokenFeedSinksIssue | Pipeline.RunSkippingKeepsList |
