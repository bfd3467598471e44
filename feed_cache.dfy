/**
 * The feed cache: one stored text per site name (the file cache/<site>.cache),
 * holding the serialized feed document last seen for that site.
 */
module FeedCache {

  /** What reading a site's cache file gives. */
  datatype ReadOutcome =
    | NoSuchFile          // open raised OSError "No such file or directory"
    | Read(text: string)  // the stored text
    | ReadFailed          // any other OSError or exception while reading

  /**
   * The read of `site`'s entry. `fault` stands for the environment making the
   * read raise something other than "No such file or directory".
   */
  function ReadEntry(entries: map<string, string>, site: string, fault: bool): ReadOutcome {
    if fault then ReadFailed
    else if site in entries then Read(entries[site])
    else NoSuchFile
  }

  /** checkCache's decision: is `payload` new content for this read? */
  function Changed(read: ReadOutcome, payload: string): bool {
    match read
    case NoSuchFile => true
    case Read(text) => text != payload
    case ReadFailed => false
  }

  /** The entries after saveCache(payload, site): that site's text replaced, every other kept. */
  function Store(entries: map<string, string>, site: string, payload: string): (r: map<string, string>)
    ensures r.Keys == entries.Keys + {site}
    ensures site in r && r[site] == payload
    ensures forall s :: s in entries && s != site ==> r[s] == entries[s]
    ensures !Changed(ReadEntry(r, site, false), payload)
  {
    entries[site := payload]
  }

  /** Saving one site's entry leaves every other site's check exactly as it was. */
  lemma StoreIsolated(entries: map<string, string>, site: string, payload: string, other: string, fault: bool)
    requires other != site
    ensures ReadEntry(Store(entries, site, payload), other, fault) == ReadEntry(entries, other, fault)
  {
  }

  class Cache {
    var entries: map<string, string>

    constructor (entries: map<string, string>)
      ensures this.entries == entries
    {
      this.entries := entries;
    }

    /**
     * checkCache(soup, site): true when there is no entry for the site or the
     * entry differs from `soup`; false when they are equal or the read failed.
     */
    method CheckCache(soup: string, site: string, fault: bool) returns (changed: bool)
      ensures changed <==> !fault && (site !in entries || entries[site] != soup)
      ensures changed == Changed(ReadEntry(entries, site, fault), soup)
    {
      if fault {
        changed := false;
      } else if site !in entries {
        changed := true;
      } else {
        var content := entries[site];
        changed := content != soup;
      }
    }

    /** saveCache(soup, site): overwrite this site's entry only. */
    method SaveCache(soup: string, site: string)
      modifies this
      ensures entries == Store(old(entries), site, soup)
    {
      entries := entries[site := soup];
    }

    /** clearCache(): remove and recreate the cache directory. */
    method ClearCache()
      modifies this
      ensures entries == map[]
    {
      entries := map[];
    }
  }
}
