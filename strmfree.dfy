/**
 * M3U8/scrapers/strmfree.py: the StreamFree adapter. Its API maps categories
 * to streams; the uncached streams starting between an hour ago and a
 * quarter of an hour from now are resolved through their player page, and
 * only those that produce a URL are stored, with "540p" rewritten to "720p".
 */
module Strmfree {
  import opened Outcomes
  import opened Text
  import opened Config
  import opened Store

  const Tag := "STRMFR"
  const BaseUrl := "https://streamfree.to"

  /** The window is lopsided: an hour back, a quarter of an hour ahead. */
  const Before := 3600
  const After := 900

  /** One stream: "match_timestamp" (epoch seconds), "league", "name" and "stream_key". */
  datatype FreeStream = FreeStream(matchTs: int, league: string, name: string, streamKey: string)

  /**
   * A decoded API answer, reduced to its "streams" member, a dictionary from
   * category to streams kept in its order; it is absent from the `{}` that
   * `refresh_api_cache` returns after a failed fetch.
   */
  datatype Api = Api(streams: Option<seq<(string, seq<FreeStream>)>>)

  datatype Event = Event(sport: string, name: string, link: string, timestamp: int)

  /** The player page of a stream: `urljoin(url, f"player/{category}/{stream_key}")`. */
  function PlayerLink(urljoin: (string, string) -> string, category: string, st: FreeStream): string
  {
    urljoin(BaseUrl, "player/" + category + "/" + st.streamKey)
  }

  /**
   * One stream of a category: skipped when it starts outside the window
   * around the minute-floored now, then when its key is cached.
   */
  function Classify(category: string, st: FreeStream, cachedKeys: set<string>, now: int,
                    urljoin: (string, string) -> string): Result<Option<Event>>
  {
    if !Within(st.matchTs, Clean(now), Before, After) then Ok(None)
    else if Key(st.league, st.name, Tag) in cachedKeys then Ok(None)
    else Ok(Some(Event(st.league, st.name, PlayerLink(urljoin, category, st), st.matchTs)))
  }

  /** The per-stream outcomes of one category; an empty category is skipped. */
  function CategoryResults(cat: (string, seq<FreeStream>), cachedKeys: set<string>, now: int,
                           urljoin: (string, string) -> string): seq<Result<Option<Event>>>
  {
    if cat.1 == [] then []
    else seq(|cat.1|, i requires 0 <= i < |cat.1| => Classify(cat.0, cat.1[i], cachedKeys, now, urljoin))
  }

  function Nested(cats: seq<(string, seq<FreeStream>)>, cachedKeys: set<string>, now: int,
                  urljoin: (string, string) -> string): seq<seq<Result<Option<Event>>>>
  {
    seq(|cats|, j requires 0 <= j < |cats| => CategoryResults(cats[j], cachedKeys, now, urljoin))
  }

  /** The events `get_events` returns for the given categories. */
  function Discover(cats: seq<(string, seq<FreeStream>)>, cachedKeys: set<string>, now: int,
                    urljoin: (string, string) -> string): seq<Event>
  {
    Kept(Concat(Nested(cats, cachedKeys, now, urljoin)))
  }

  /** Discovery over present API data never raises. */
  lemma DiscoverNeverFails(cats: seq<(string, seq<FreeStream>)>, cachedKeys: set<string>, now: int,
                           urljoin: (string, string) -> string)
    ensures Keep(Concat(Nested(cats, cachedKeys, now, urljoin))) == Ok(Discover(cats, cachedKeys, now, urljoin))
  {
    var xss := Nested(cats, cachedKeys, now, urljoin);
    var rs := Concat(xss);
    forall i | 0 <= i < |rs| ensures rs[i].Ok? {
      ConcatMember(xss, rs[i]);
    }
    KeepMeaning(rs);
  }

  /** The body of the inner loop of `get_events`, for one stream. */
  method ProcessStream(category: string, st: FreeStream, cachedKeys: set<string>, now: int,
                       urljoin: (string, string) -> string) returns (out: Option<Event>)
    ensures Classify(category, st, cachedKeys, now, urljoin) == Ok(out)
  {
    var startTs, endTs := Clean(now) - Before, Clean(now) + After;
    if !(startTs <= st.matchTs <= endTs) {
      return None;
    }
    if Key(st.league, st.name, Tag) in cachedKeys {
      return None;
    }
    out := (Some(Event(st.league, st.name, PlayerLink(urljoin, category, st), st.matchTs)));
  }

  /** The inner loop of `get_events`: one category's new events, in order. */
  method ScanCategory(cat: (string, seq<FreeStream>), cachedKeys: set<string>, now: int,
                      urljoin: (string, string) -> string) returns (found: seq<Event>)
    ensures Keep(CategoryResults(cat, cachedKeys, now, urljoin)) == Ok(found)
  {
    var rs := CategoryResults(cat, cachedKeys, now, urljoin);
    found := [];
    if cat.1 == [] {
      return;
    }
    var j := 0;
    while j < |cat.1|
      invariant 0 <= j <= |cat.1|
      invariant Keep(rs[..j]) == Ok(found)
    {
      KeepStep(rs, j);
      var out := ProcessStream(cat.0, cat.1[j], cachedKeys, now, urljoin);
      if out.Some? {
        found := found + [out.value];
      }
      j := j + 1;
    }
    assert rs[..j] == rs;
  }

  /** The nested loop of `get_events`. */
  method GetEvents(cats: seq<(string, seq<FreeStream>)>, cachedKeys: set<string>, now: int,
                   urljoin: (string, string) -> string) returns (events: seq<Event>)
    ensures Keep(Concat(Nested(cats, cachedKeys, now, urljoin))) == Ok(events)
    ensures events == Discover(cats, cachedKeys, now, urljoin)
  {
    var xss := Nested(cats, cachedKeys, now, urljoin);
    events := [];
    var g := 0;
    while g < |cats|
      invariant 0 <= g <= |cats|
      invariant Keep(Concat(xss[..g])) == Ok(events)
    {
      var found := ScanCategory(cats[g], cachedKeys, now, urljoin);
      ConcatSplitAt(xss, g, 0);
      KeepAppend(Concat(xss[..g]), xss[g]);
      events := events + found;
      g := g + 1;
    }
    assert xss[..|xss|] == xss;
    KeepMeaning(Concat(xss));
  }

  /**
   * Every event comes from a stream of some category that starts inside the
   * window and whose key is not cached; its link is that stream's player page.
   */
  lemma DiscoverSound(cats: seq<(string, seq<FreeStream>)>, cachedKeys: set<string>, now: int,
                      urljoin: (string, string) -> string)
    ensures forall ev :: ev in Discover(cats, cachedKeys, now, urljoin) ==>
      && Within(ev.timestamp, Clean(now), Before, After)
      && Key(ev.sport, ev.name, Tag) !in cachedKeys
      && exists cat, st :: (cat in cats && st in cat.1 && st.league == ev.sport && st.name == ev.name &&
           st.matchTs == ev.timestamp && ev.link == PlayerLink(urljoin, cat.0, st))
  {
    var xss := Nested(cats, cachedKeys, now, urljoin);
    var rs := Concat(xss);
    var P := (ev: Event) =>
      && Within(ev.timestamp, Clean(now), Before, After)
      && Key(ev.sport, ev.name, Tag) !in cachedKeys
      && exists cat, st :: (cat in cats && st in cat.1 && st.league == ev.sport && st.name == ev.name &&
           st.matchTs == ev.timestamp && ev.link == PlayerLink(urljoin, cat.0, st));
    forall i | 0 <= i < |rs| && rs[i].Ok? && rs[i].value.Some? ensures P(rs[i].value.value) {
      ConcatMember(xss, rs[i]);
      var s :| 0 <= s < |xss| && rs[i] in xss[s];
      var c :| 0 <= c < |xss[s]| && xss[s][c] == rs[i];
      assert cats[s] in cats;
      assert cats[s].1[c] in cats[s].1;
    }
    KeepAll(rs, P);
    DiscoverNeverFails(cats, cachedKeys, now, urljoin);
  }

  /**
   * Conversely, every stream that starts inside the window and whose key is
   * not cached is returned, with its player page as the link.
   */
  lemma DiscoverComplete(cats: seq<(string, seq<FreeStream>)>, cachedKeys: set<string>, now: int,
                         urljoin: (string, string) -> string, g: nat, j: nat)
    requires g < |cats| && j < |cats[g].1|
    requires var st := cats[g].1[j];
      Within(st.matchTs, Clean(now), Before, After) && Key(st.league, st.name, Tag) !in cachedKeys
    ensures var st := cats[g].1[j];
      Event(st.league, st.name, PlayerLink(urljoin, cats[g].0, st), st.matchTs) in Discover(cats, cachedKeys, now, urljoin)
  {
    var xss := Nested(cats, cachedKeys, now, urljoin);
    ConcatSplitAt(xss, g, j);
    var pos := |Concat(xss[..g])| + j;
    assert Concat(xss)[pos] == xss[g][j];
    DiscoverNeverFails(cats, cachedKeys, now, urljoin);
    KeepComplete(Concat(xss), pos);
  }

  /** `url.replace("540p", "720p")`, applied to a resolved URL. */
  function Upgrade(url: Option<string>): (r: Option<string>)
    ensures url.None? <==> r.None?
    ensures url.Some? ==> |r.value| == |url.value|
    ensures url.Some? && !Contains(url.value, "540p") ==> r == url
  {
    if url.None? then None
    else
      ReplaceKeepsLength(url.value, "540p", "720p");
      ReplaceAbsent(url.value, "540p", "720p");
      Some(Replace(url.value, "540p", "720p"))
  }

  /** The API data `get_events` reads: the cached blob, else a fresh fetch, else `{}`. */
  function ApiData(cachedApi: Option<Api>, fetched: Option<Api>): Api
  {
    if cachedApi.Some? then cachedApi.value else if fetched.Some? then fetched.value else Api(None)
  }

  function Attempts(events: seq<Event>, resolve: string -> Option<string>, table: Table): seq<Result<Option<Attempt>>>
  {
    seq(|events|, i requires 0 <= i < |events| =>
      var ev := events[i];
      Found(Key(ev.sport, ev.name, Tag), Upgrade(resolve(ev.link)), GetTvgInfo(table, ev.sport, ev.name), None,
            BaseUrl, ev.timestamp, None))
  }

  /**
   * What one `scrape` leaves behind, as (cache written, live map): a missing
   * "streams" member raises `KeyError`; otherwise each discovered event is
   * resolved and recorded, upgraded, if it produced a URL.
   */
  function Run(cached: map<string, Entry>, cachedApi: Option<Api>, fetched: Option<Api>, now: int,
               resolve: string -> Option<string>, table: Table, urljoin: (string, string) -> string)
    : Result<(map<string, Entry>, map<string, Entry>)>
  {
    match ApiData(cachedApi, fetched).streams
    case None => Err(KeyError)
    case Some(cats) =>
      Outcome(DropOnFailure, cached, cached, Attempts(Discover(cats, cached.Keys, now, urljoin), resolve, table))
  }

  /** `scrape`: discovery, then the resolution loop. */
  method Scrape(cached: map<string, Entry>, cachedApi: Option<Api>, fetched: Option<Api>, now: int,
                resolve: string -> Option<string>, table: Table, urljoin: (string, string) -> string)
    returns (r: Result<(map<string, Entry>, map<string, Entry>)>)
    ensures r == Run(cached, cachedApi, fetched, now, resolve, table, urljoin)
  {
    var apiData := cachedApi;
    if apiData.None? {
      apiData := if fetched.Some? then fetched else Some(Api(None));
    }
    if apiData.value.streams.None? {
      return Err(KeyError);
    }
    var events := GetEvents(apiData.value.streams.value, cached.Keys, now, urljoin);
    var added;
    r, added := RecordAttempts(DropOnFailure, cached, cached, Attempts(events, resolve, table));
  }

  /**
   * After a successful run the cache and the live map are equal and hold the
   * cached entries and the resolved events; every new entry has a URL and the
   * StreamFree base, and its timestamp is its stream's start, which lies inside
   * the window.
   */
  lemma RunStores(cached: map<string, Entry>, cachedApi: Option<Api>, fetched: Option<Api>, now: int,
                  resolve: string -> Option<string>, table: Table, urljoin: (string, string) -> string)
    requires Run(cached, cachedApi, fetched, now, resolve, table, urljoin).Ok?
    ensures var (c, l) := Run(cached, cachedApi, fetched, now, resolve, table, urljoin).value;
      var cats := ApiData(cachedApi, fetched).streams.value;
      var atts := Keep(Attempts(Discover(cats, cached.Keys, now, urljoin), resolve, table)).value;
      && c == l && c.Keys == cached.Keys + LiveKeys(atts)
      && |c| - |cached| == |LiveKeys(atts) - cached.Keys|
      && forall k :: k in c && k !in cached ==>
           IsLive(c[k]) && c[k].base == BaseUrl && Within(c[k].timestamp, Clean(now), Before, After)
  {
    var cats := ApiData(cachedApi, fetched).streams.value;
    var events := Discover(cats, cached.Keys, now, urljoin);
    var outs := Attempts(events, resolve, table);
    var atts := Keep(outs).value;
    DropGrowth(cached, atts);
    DiscoverSound(cats, cached.Keys, now, urljoin);
    var P := (a: Attempt) => IsLive(a.entry) && a.entry.base == BaseUrl &&
      Within(a.entry.timestamp, Clean(now), Before, After);
    forall i | 0 <= i < |outs| && outs[i].Ok? && outs[i].value.Some? ensures P(outs[i].value.value) {
      var ev := events[i];
      assert ev in events;
      assert outs[i] == Found(Key(ev.sport, ev.name, Tag), Upgrade(resolve(ev.link)),
        GetTvgInfo(table, ev.sport, ev.name), None, BaseUrl, ev.timestamp, None);
    }
    KeepAll(outs, P);
    RecordAllIsOverlay(DropOnFailure, cached, cached, atts);
    forall k | k in Overlay(cached, atts, true) && k !in cached ensures P(Attempt(k, Overlay(cached, atts, true)[k])) {
      LatestIn(atts, k, true);
      var i :| 0 <= i < |atts| && atts[i].key == k && atts[i].entry == Latest(atts, k, true).value;
      assert atts[i] in atts;
    }
  }

  /**
   * Every entry a successful run adds carries the start time of a stream of
   * the API data, the one whose league and name give its key.
   */
  lemma RunStarts(cached: map<string, Entry>, cachedApi: Option<Api>, fetched: Option<Api>, now: int,
                  resolve: string -> Option<string>, table: Table, urljoin: (string, string) -> string)
    requires Run(cached, cachedApi, fetched, now, resolve, table, urljoin).Ok?
    ensures var cats := ApiData(cachedApi, fetched).streams.value;
      var c := Run(cached, cachedApi, fetched, now, resolve, table, urljoin).value.0;
      forall k :: k in c && k !in cached ==>
        exists cat, st :: (cat in cats && st in cat.1 && Key(st.league, st.name, Tag) == k &&
          c[k].timestamp == st.matchTs)
  {
    var cats := ApiData(cachedApi, fetched).streams.value;
    var events := Discover(cats, cached.Keys, now, urljoin);
    var outs := Attempts(events, resolve, table);
    var atts := Keep(outs).value;
    DiscoverSound(cats, cached.Keys, now, urljoin);
    var P := (a: Attempt) =>
      exists cat, st :: cat in cats && st in cat.1 && Key(st.league, st.name, Tag) == a.key && a.entry.timestamp == st.matchTs;
    forall i | 0 <= i < |outs| && outs[i].Ok? && outs[i].value.Some? ensures P(outs[i].value.value) {
      var ev := events[i];
      assert ev in events;
      assert outs[i] == Found(Key(ev.sport, ev.name, Tag), Upgrade(resolve(ev.link)),
        GetTvgInfo(table, ev.sport, ev.name), None, BaseUrl, ev.timestamp, None);
    }
    KeepAll(outs, P);
    RecordAllIsOverlay(DropOnFailure, cached, cached, atts);
    OverlayNew(cached, atts, true, P);
  }
}
