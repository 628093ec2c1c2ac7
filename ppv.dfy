/**
 * M3U8/scrapers/ppv.py: the PPV adapter. Its API lists stream groups by
 * category; the uncached streams starting within half an hour of now are
 * resolved, and only the ones that produce a URL are stored.
 */
module Ppv {
  import opened Outcomes
  import opened Config
  import opened Store

  const Tag := "PPV"
  const BaseUrl := "https://ppv.to"

  /** The category that is never scraped. */
  const AllDay := "24/7 Streams"

  /**
   * One stream of a group: "name", "starts_at" (epoch seconds), "poster" and
   * "iframe". A missing field is modelled by its falsy value ("" or 0).
   */
  datatype Stream = Stream(name: string, startsAt: int, poster: Option<string>, iframe: string)

  datatype Group = Group(category: string, streams: seq<Stream>)

  /**
   * A decoded API answer, reduced to its "streams" member, which is absent from
   * the `{}` that `refresh_api_cache` returns after a failed fetch.
   */
  datatype Api = Api(streams: Option<seq<Group>>)

  datatype Event = Event(sport: string, name: string, link: string, logo: Option<string>, timestamp: int)

  /**
   * One stream of a scraped group: skipped without a name, a start or an
   * iframe, when its key is cached, or when it starts outside the inclusive
   * window of 30 minutes around the minute-floored now.
   */
  function Classify(sport: string, st: Stream, cachedKeys: set<string>, now: int): Result<Option<Event>>
  {
    if st.name == "" || st.startsAt == 0 || st.iframe == "" then Ok(None)
    else if Key(sport, st.name, Tag) in cachedKeys then Ok(None)
    else if !Within(st.startsAt, Clean(now), 1800, 1800) then Ok(None)
    else Ok(Some(Event(sport, st.name, st.iframe, st.poster, st.startsAt)))
  }

  /** The per-stream outcomes of one group: none at all for the 24/7 category. */
  function GroupResults(g: Group, cachedKeys: set<string>, now: int): seq<Result<Option<Event>>>
  {
    if g.category == AllDay then []
    else seq(|g.streams|, i requires 0 <= i < |g.streams| => Classify(g.category, g.streams[i], cachedKeys, now))
  }

  function Nested(groups: seq<Group>, cachedKeys: set<string>, now: int): seq<seq<Result<Option<Event>>>>
  {
    seq(|groups|, j requires 0 <= j < |groups| => GroupResults(groups[j], cachedKeys, now))
  }

  /** The events `get_events` returns for the given groups. */
  function Discover(groups: seq<Group>, cachedKeys: set<string>, now: int): seq<Event>
  {
    Kept(Concat(Nested(groups, cachedKeys, now)))
  }

  /** Discovery over present API data never raises. */
  lemma DiscoverNeverFails(groups: seq<Group>, cachedKeys: set<string>, now: int)
    ensures Keep(Concat(Nested(groups, cachedKeys, now))) == Ok(Discover(groups, cachedKeys, now))
  {
    var xss := Nested(groups, cachedKeys, now);
    var rs := Concat(xss);
    forall i | 0 <= i < |rs| ensures rs[i].Ok? {
      ConcatMember(xss, rs[i]);
    }
    KeepMeaning(rs);
  }

  /** The inner loop of `get_events`: one group's new events, none for the 24/7 category. */
  method ScanGroup(group: Group, cachedKeys: set<string>, now: int) returns (found: seq<Event>)
    ensures Keep(GroupResults(group, cachedKeys, now)) == Ok(found)
  {
    var rs := GroupResults(group, cachedKeys, now);
    found := [];
    if group.category == AllDay {
      return;
    }
    var j := 0;
    while j < |group.streams|
      invariant 0 <= j <= |group.streams|
      invariant Keep(rs[..j]) == Ok(found)
    {
      KeepStep(rs, j);
      var st := group.streams[j];
      if st.name != "" && st.startsAt != 0 && st.iframe != "" {
        var key := Key(group.category, st.name, Tag);
        if key !in cachedKeys && Within(st.startsAt, Clean(now), 1800, 1800) {
          found := found + [Event(group.category, st.name, st.iframe, st.poster, st.startsAt)];
        }
      }
      j := j + 1;
    }
    assert rs[..j] == rs;
  }

  /** The nested loop of `get_events`. */
  method GetEvents(groups: seq<Group>, cachedKeys: set<string>, now: int) returns (events: seq<Event>)
    ensures Keep(Concat(Nested(groups, cachedKeys, now))) == Ok(events)
    ensures events == Discover(groups, cachedKeys, now)
  {
    var xss := Nested(groups, cachedKeys, now);
    events := [];
    var g := 0;
    while g < |groups|
      invariant 0 <= g <= |groups|
      invariant Keep(Concat(xss[..g])) == Ok(events)
    {
      var found := ScanGroup(groups[g], cachedKeys, now);
      assert xss[g] == GroupResults(groups[g], cachedKeys, now);
      KeepOuterStep(xss, g);
      events := events + found;
      g := g + 1;
    }
    assert xss[..|xss|] == xss;
    KeepMeaning(Concat(xss));
  }

  /**
   * Every event comes from a named, timed stream with an iframe outside the
   * 24/7 category; its link is that iframe, its key is not cached and it
   * starts inside the window.
   */
  lemma DiscoverSound(groups: seq<Group>, cachedKeys: set<string>, now: int)
    ensures forall ev :: ev in Discover(groups, cachedKeys, now) ==>
      && ev.sport != AllDay && ev.name != "" && ev.link != "" && ev.timestamp != 0
      && Key(ev.sport, ev.name, Tag) !in cachedKeys
      && Within(ev.timestamp, Clean(now), 1800, 1800)
      && exists g :: (g in groups && g.category == ev.sport &&
           Stream(ev.name, ev.timestamp, ev.logo, ev.link) in g.streams)
  {
    var xss := Nested(groups, cachedKeys, now);
    var rs := Concat(xss);
    var P := (ev: Event) =>
      && ev.sport != AllDay && ev.name != "" && ev.link != "" && ev.timestamp != 0
      && Key(ev.sport, ev.name, Tag) !in cachedKeys
      && Within(ev.timestamp, Clean(now), 1800, 1800)
      && exists g :: (g in groups && g.category == ev.sport &&
           Stream(ev.name, ev.timestamp, ev.logo, ev.link) in g.streams);
    forall i | 0 <= i < |rs| && rs[i].Ok? && rs[i].value.Some? ensures P(rs[i].value.value) {
      ConcatMember(xss, rs[i]);
      var s :| 0 <= s < |xss| && rs[i] in xss[s];
      var c :| 0 <= c < |xss[s]| && xss[s][c] == rs[i];
      assert groups[s] in groups;
      assert groups[s].streams[c] in groups[s].streams;
    }
    KeepAll(rs, P);
    DiscoverNeverFails(groups, cachedKeys, now);
  }

  /**
   * Conversely, every named, timed stream with an iframe outside the 24/7
   * category, whose key is not cached and which starts in the window, is
   * returned.
   */
  lemma DiscoverComplete(groups: seq<Group>, cachedKeys: set<string>, now: int, g: nat, j: nat)
    requires g < |groups| && j < |groups[g].streams|
    requires groups[g].category != AllDay
    requires var st := groups[g].streams[j];
      st.name != "" && st.startsAt != 0 && st.iframe != "" &&
      Key(groups[g].category, st.name, Tag) !in cachedKeys && Within(st.startsAt, Clean(now), 1800, 1800)
    ensures var st := groups[g].streams[j];
      Event(groups[g].category, st.name, st.iframe, st.poster, st.startsAt) in Discover(groups, cachedKeys, now)
  {
    var xss := Nested(groups, cachedKeys, now);
    assert xss[g] == GroupResults(groups[g], cachedKeys, now);
    assert xss[g][j] == Classify(groups[g].category, groups[g].streams[j], cachedKeys, now);
    DiscoverNeverFails(groups, cachedKeys, now);
    KeepNestedComplete(xss, g, j);
  }

  /** The API data `get_events` reads: the cached blob, else a fresh fetch, else `{}`. */
  function ApiData(cachedApi: Option<Api>, fetched: Option<Api>): Api
  {
    if cachedApi.Some? then cachedApi.value else if fetched.Some? then fetched.value else Api(None)
  }

  function Attempts(events: seq<Event>, resolve: string -> Option<string>, table: Table): seq<Result<Option<Attempt>>>
  {
    seq(|events|, i requires 0 <= i < |events| =>
      var ev := events[i];
      Found(Key(ev.sport, ev.name, Tag), resolve(ev.link), GetTvgInfo(table, ev.sport, ev.name), ev.logo,
            BaseUrl, ev.timestamp, None))
  }

  /**
   * What one `scrape` leaves behind, as (cache written, live map): a missing
   * "streams" member raises `KeyError`; otherwise each discovered event is
   * resolved and recorded if it produced a URL.
   */
  function Run(cached: map<string, Entry>, cachedApi: Option<Api>, fetched: Option<Api>, now: int,
               resolve: string -> Option<string>, table: Table): Result<(map<string, Entry>, map<string, Entry>)>
  {
    match ApiData(cachedApi, fetched).streams
    case None => Err(KeyError)
    case Some(groups) =>
      Outcome(DropOnFailure, cached, cached, Attempts(Discover(groups, cached.Keys, now), resolve, table))
  }

  /** `scrape`: discovery, then the resolution loop. */
  method Scrape(cached: map<string, Entry>, cachedApi: Option<Api>, fetched: Option<Api>, now: int,
                resolve: string -> Option<string>, table: Table)
    returns (r: Result<(map<string, Entry>, map<string, Entry>)>)
    ensures r == Run(cached, cachedApi, fetched, now, resolve, table)
  {
    var apiData := cachedApi;
    if apiData.None? {
      apiData := if fetched.Some? then fetched else Some(Api(None));
    }
    if apiData.value.streams.None? {
      return Err(KeyError);
    }
    var events := GetEvents(apiData.value.streams.value, cached.Keys, now);
    var added;
    r, added := RecordAttempts(DropOnFailure, cached, cached, Attempts(events, resolve, table));
  }

  /**
   * After a successful run the cache and the live map are equal; they hold
   * the cached entries and the resolved events, every new entry has a URL,
   * and the new count is the number of new keys.
   */
  lemma RunStores(cached: map<string, Entry>, cachedApi: Option<Api>, fetched: Option<Api>, now: int,
                  resolve: string -> Option<string>, table: Table)
    requires Run(cached, cachedApi, fetched, now, resolve, table).Ok?
    ensures var (c, l) := Run(cached, cachedApi, fetched, now, resolve, table).value;
      var groups := ApiData(cachedApi, fetched).streams.value;
      var atts := Keep(Attempts(Discover(groups, cached.Keys, now), resolve, table)).value;
      && c == l && c.Keys == cached.Keys + LiveKeys(atts)
      && |c| - |cached| == |LiveKeys(atts) - cached.Keys|
      && forall k :: k in c && k !in cached ==> IsLive(c[k]) && c[k].base == BaseUrl
  {
    var groups := ApiData(cachedApi, fetched).streams.value;
    var outs := Attempts(Discover(groups, cached.Keys, now), resolve, table);
    var atts := Keep(outs).value;
    DropGrowth(cached, atts);
    forall i | 0 <= i < |outs| && outs[i].Ok? && outs[i].value.Some?
      ensures IsLive(outs[i].value.value.entry) && outs[i].value.value.entry.base == BaseUrl
    {
      var ev := Discover(groups, cached.Keys, now)[i];
      assert outs[i] == Found(Key(ev.sport, ev.name, Tag), resolve(ev.link), GetTvgInfo(table, ev.sport, ev.name),
        ev.logo, BaseUrl, ev.timestamp, None);
    }
    KeepAll(outs, (a: Attempt) => IsLive(a.entry) && a.entry.base == BaseUrl);
    RecordAllIsOverlay(DropOnFailure, cached, cached, atts);
    forall k | k in Overlay(cached, atts, true) && k !in cached
      ensures IsLive(Overlay(cached, atts, true)[k]) && Overlay(cached, atts, true)[k].base == BaseUrl
    {
      LatestIn(atts, k, true);
      var i :| 0 <= i < |atts| && atts[i].key == k && atts[i].entry == Latest(atts, k, true).value;
      assert atts[i] in atts;
    }
  }

  /**
   * With no cached API blob and a failed fetch, the run raises `KeyError`
   * before anything is discovered.
   */
  lemma UnreachableApiRaises(cached: map<string, Entry>, now: int, resolve: string -> Option<string>, table: Table)
    ensures Run(cached, None, None, now, resolve, table) == Err(KeyError)
  {
  }
}
