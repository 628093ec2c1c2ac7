/**
 * M3U8/scrapers/pixel.py: the PixelSport adapter. Its API lists events with
 * up to three server links; every link of an event of today inside the
 * half-hour window that holds an http(s) ".m3u8" URL becomes an entry of its
 * own, with no browser resolution.
 */
module Pixel {
  import opened Outcomes
  import opened Text
  import opened Config
  import opened Store

  const Tag := "PIXL"
  const EntryBase := "https://pixelsport.tv/"

  /** A character the pattern's `[^\s'"]` refuses. */
  predicate Stop(c: char)
  {
    IsSpace(c) || c == '\'' || c == '"'
  }

  /** "http://" or "https://" at `p` of the lower-cased text, the host starting at `a`. */
  predicate SchemeAt(l: string, p: nat, a: nat)
  {
    (a == p + 7 && At(l, "http://", p)) || (a == p + 8 && At(l, "https://", p))
  }

  /**
   * A match of `https?://[^\s'"]+?\.m3u8(?:\?[^\s'"]*)?` (IGNORECASE) starting
   * at `p`: the scheme, at least one allowed character from `a` up to `q`,
   * then ".m3u8" at `q`. The optional query can always match empty, so it does
   * not decide whether there is a match.
   */
  predicate MatchAt(s: string, p: nat, a: nat, q: nat)
  {
    var l := Lower(s);
    && p < a < q && q + 5 <= |s|
    && SchemeAt(l, p, a)
    && (forall k :: a <= k < q ==> !Stop(s[k]))
    && At(l, ".m3u8", q)
  }

  /** `pattern.search(stream_link)` finds something. */
  predicate HasStreamUrl(s: string)
  {
    exists p: nat, a: nat, q: nat :: p < a < q <= |s| && MatchAt(s, p, a, q)
  }

  lemma PlainLinkMatches()
    ensures HasStreamUrl("http://a.M3U8?t=1")
  {
    var s := "http://a.M3U8?t=1";
    var l := Lower(s);
    assert l[..7] == "http://";
    assert l[8..13] == ".m3u8";
    assert !Stop(s[7]);
    assert MatchAt(s, 0, 7, 8);
  }

  /** The lazy `+?` still needs one character: a bare "http://.m3u8" is refused. */
  lemma EmptyHostRefused()
    ensures !HasStreamUrl("http://.m3u8")
  {
    var s := "http://.m3u8";
    var l := Lower(s);
    assert l == s;
    forall p: nat, a: nat, q: nat | p < a < q <= |s| ensures !MatchAt(s, p, a, q) {
    }
  }

  /** The channel's "server1URL" .. "server3URL", each possibly missing. */
  datatype Channel = Channel(server1: Option<string>, server2: Option<string>, server3: Option<string>)

  /**
   * One API event: the day and the epoch second of its "date", its
   * "match_name", its "TVCategory" name and its channel.
   */
  datatype PixelEvent = PixelEvent(day: int, ts: int, matchName: string, sport: string, channel: Channel)

  /** A decoded API answer, reduced to its "events" member (absent from `{}`). */
  datatype Api = Api(events: Option<seq<PixelEvent>>)

  /** `channel_info.get(f"server{z}URL")` */
  function Server(ch: Channel, z: nat): Option<string>
    requires 1 <= z <= 3
  {
    if z == 1 then ch.server1 else if z == 2 then ch.server2 else ch.server3
  }

  /** `f"[{sport}] {event_name} {z} (PIXL)"` */
  function ServerKey(ev: PixelEvent, z: nat): string
    requires 1 <= z <= 3
  {
    Key(ev.sport, ev.matchName + " " + NatToString(z), Tag)
  }

  /**
   * One server of a current event: skipped when the link is missing, empty or
   * holds no stream URL, then when its key is cached; otherwise the league
   * lookup, which may raise, and the entry carrying the link itself.
   */
  function ServerResult(ev: PixelEvent, z: nat, cachedKeys: set<string>, table: Table): Result<Option<Attempt>>
    requires 1 <= z <= 3
  {
    var link := Server(ev.channel, z);
    if link.None? || link.value == "" || !HasStreamUrl(link.value) then Ok(None)
    else if ServerKey(ev, z) in cachedKeys then Ok(None)
    else
      match GetTvgInfo(table, ev.sport, ev.matchName)
      case Err(e) => Err(e)
      case Ok((tvgId, logo)) =>
        Ok(Some(Attempt(ServerKey(ev, z), Entry(link.value, logo, EntryBase, ev.ts, IdOr(tvgId), None))))
  }

  /** An event is looked at only when it is dated today and starts within half an hour of now. */
  predicate Current(ev: PixelEvent, today: int, now: int)
  {
    ev.day == today && Within(ev.ts, Clean(now), 1800, 1800)
  }

  /** The outcomes of servers 1, 2 and 3 of an event; none for an event not current. */
  function EventResults(ev: PixelEvent, cachedKeys: set<string>, today: int, now: int, table: Table)
    : seq<Result<Option<Attempt>>>
  {
    if !Current(ev, today, now) then []
    else [ServerResult(ev, 1, cachedKeys, table), ServerResult(ev, 2, cachedKeys, table), ServerResult(ev, 3, cachedKeys, table)]
  }

  /** A current event's outcomes are those of servers 1, 2 and 3 in turn; another event has none. */
  lemma EventResultsAt(ev: PixelEvent, cachedKeys: set<string>, today: int, now: int, table: Table)
    ensures var rs := EventResults(ev, cachedKeys, today, now, table);
      && (Current(ev, today, now) ==> |rs| == 3 && forall z :: 1 <= z <= 3 ==> rs[z - 1] == ServerResult(ev, z, cachedKeys, table))
      && (!Current(ev, today, now) ==> rs == [])
  {
  }

  function Nested(evs: seq<PixelEvent>, cachedKeys: set<string>, today: int, now: int, table: Table)
    : seq<seq<Result<Option<Attempt>>>>
  {
    seq(|evs|, j requires 0 <= j < |evs| => EventResults(evs[j], cachedKeys, today, now, table))
  }

  /**
   * What `get_events` returns, or raises: the `events` dict, each key
   * assigned in turn, so a later server with the same key wins.
   */
  function Collect(evs: seq<PixelEvent>, cachedKeys: set<string>, today: int, now: int, table: Table)
    : Result<map<string, Entry>>
  {
    match Keep(Concat(Nested(evs, cachedKeys, today, now, table)))
    case Err(e) => Err(e)
    case Ok(atts) => Ok(Overlay(map[], atts, false))
  }

  /** The body of the inner loop, for server `z`. */
  method ProcessServer(ev: PixelEvent, z: nat, cachedKeys: set<string>, table: Table)
    returns (out: Result<Option<Attempt>>)
    requires 1 <= z <= 3
    ensures out == ServerResult(ev, z, cachedKeys, table)
  {
    var link := Server(ev.channel, z);
    if link.Some? && link.value != "" && HasStreamUrl(link.value) {
      var key := ServerKey(ev, z);
      if key in cachedKeys {
        return Ok(None);
      }
      var lookup := GetTvgInfo(table, ev.sport, ev.matchName);
      if lookup.Err? {
        return Err(lookup.error);
      }
      var (tvgId, logo) := lookup.value;
      return Ok(Some(Attempt(key, Entry(link.value, logo, EntryBase, ev.ts, IdOr(tvgId), None))));
    }
    out := Ok(None);
  }

  /** The inner loop over servers 1..3 of one event. */
  method ScanEvent(ev: PixelEvent, cachedKeys: set<string>, today: int, now: int, table: Table)
    returns (r: Result<seq<Attempt>>)
    ensures r == Keep(EventResults(ev, cachedKeys, today, now, table))
  {
    var rs := EventResults(ev, cachedKeys, today, now, table);
    if !(ev.day == today && Clean(now) - 1800 <= ev.ts <= Clean(now) + 1800) {
      return Ok([]);
    }
    EventResultsAt(ev, cachedKeys, today, now, table);
    var found: seq<Attempt> := [];
    var z := 1;
    while z <= 3
      invariant 1 <= z <= 4
      invariant Keep(rs[..z - 1]) == Ok(found)
    {
      KeepStep(rs, z - 1);
      var out := ProcessServer(ev, z, cachedKeys, table);
      match out {
        case Err(e) =>
          KeepErrPersists(rs, z, 3);
          assert rs[..3] == rs;
          return Err(e);
        case Ok(None) =>
        case Ok(Some(a)) =>
          found := found + [a];
      }
      z := z + 1;
    }
    assert rs[..3] == rs;
    r := Ok(found);
  }

  /** `events[key] = {...}` for each attempt in turn. */
  method AssignAll(m: map<string, Entry>, ghost done: seq<Attempt>, found: seq<Attempt>)
    returns (m': map<string, Entry>)
    requires m == Overlay(map[], done, false)
    ensures m' == Overlay(map[], done + found, false)
  {
    m' := m;
    var k := 0;
    ghost var acc := done;
    assert done + found[..0] == done;
    while k < |found|
      invariant 0 <= k <= |found|
      invariant acc == done + found[..k]
      invariant m' == Overlay(map[], acc, false)
    {
      var a := found[k];
      assert (acc + [a])[..|acc|] == acc;
      OverlayStep(map[], acc + [a], false);
      m' := m'[a.key := a.entry];
      assert found[..k + 1] == found[..k] + [a];
      acc := acc + [a];
      k := k + 1;
    }
    assert found[..k] == found;
  }

  /** `get_events`: the nested loops filling the `events` dict. */
  method GetEvents(evs: seq<PixelEvent>, cachedKeys: set<string>, today: int, now: int, table: Table)
    returns (r: Result<map<string, Entry>>)
    ensures r == Collect(evs, cachedKeys, today, now, table)
  {
    var xss := Nested(evs, cachedKeys, today, now, table);
    var events: map<string, Entry> := map[];
    ghost var done: seq<Attempt> := [];
    var g := 0;
    while g < |evs|
      invariant 0 <= g <= |evs|
      invariant Keep(Concat(xss[..g])) == Ok(done)
      invariant events == Overlay(map[], done, false)
    {
      var found := ScanEvent(evs[g], cachedKeys, today, now, table);
      assert xss[g] == EventResults(evs[g], cachedKeys, today, now, table);
      ConcatSplitAt(xss, g, 0);
      KeepAppend(Concat(xss[..g]), xss[g]);
      if found.Err? {
        assert xss[g][..|xss[g]|] == xss[g];
        KeepErrNested(xss, g, |xss[g]|);
        return Err(found.error);
      }
      events := AssignAll(events, done, found.value);
      done := done + found.value;
      g := g + 1;
    }
    assert xss[..|xss|] == xss;
    r := Ok(events);
  }

  /** The outcome of one server, stated by what it means. */
  lemma ServerResultSound(ev: PixelEvent, z: nat, cachedKeys: set<string>, table: Table)
    requires 1 <= z <= 3
    ensures var r := ServerResult(ev, z, cachedKeys, table);
      r.Ok? && r.value.Some? ==>
        var a := r.value.value;
        && a.key == ServerKey(ev, z) && a.key !in cachedKeys
        && Server(ev.channel, z) == Some(a.entry.url) && HasStreamUrl(a.entry.url)
        && a.entry.base == EntryBase && a.entry.timestamp == ev.ts && IsLive(a.entry)
  {
  }

  /**
   * Every collected entry is keyed by an uncached server key of a current
   * event, and carries that server's link, which holds a stream URL, the
   * PixelSport base and the event's start.
   */
  lemma CollectSound(evs: seq<PixelEvent>, cachedKeys: set<string>, today: int, now: int, table: Table)
    ensures var r := Collect(evs, cachedKeys, today, now, table);
      r.Ok? ==> forall k :: k in r.value ==>
        && k !in cachedKeys && HasStreamUrl(r.value[k].url) && IsLive(r.value[k])
        && r.value[k].base == EntryBase && Within(r.value[k].timestamp, Clean(now), 1800, 1800)
        && exists ev, z :: (ev in evs && 1 <= z <= 3 && Current(ev, today, now) && k == ServerKey(ev, z) &&
             Server(ev.channel, z) == Some(r.value[k].url))
  {
    var xss := Nested(evs, cachedKeys, today, now, table);
    var rs := Concat(xss);
    var P := (a: Attempt) =>
      && a.key !in cachedKeys && HasStreamUrl(a.entry.url) && IsLive(a.entry)
      && a.entry.base == EntryBase && Within(a.entry.timestamp, Clean(now), 1800, 1800)
      && exists ev, z :: (ev in evs && 1 <= z <= 3 && Current(ev, today, now) && a.key == ServerKey(ev, z) &&
           Server(ev.channel, z) == Some(a.entry.url));
    forall i | 0 <= i < |rs| && rs[i].Ok? && rs[i].value.Some? ensures P(rs[i].value.value) {
      NestedAttemptSound(evs, cachedKeys, today, now, table, rs[i]);
    }
    KeepAll(rs, P);
    if Keep(rs).Ok? {
      OverlayNew(map[], Keep(rs).value, false, P);
    }
  }

  /** An attempt found among the servers' outcomes comes from a server of a current event. */
  lemma NestedAttemptSound(evs: seq<PixelEvent>, cachedKeys: set<string>, today: int, now: int, table: Table,
                           r: Result<Option<Attempt>>)
    requires r in Concat(Nested(evs, cachedKeys, today, now, table)) && r.Ok? && r.value.Some?
    ensures var a := r.value.value;
      && a.key !in cachedKeys && HasStreamUrl(a.entry.url) && IsLive(a.entry)
      && a.entry.base == EntryBase && Within(a.entry.timestamp, Clean(now), 1800, 1800)
      && exists ev, z :: (ev in evs && 1 <= z <= 3 && Current(ev, today, now) && a.key == ServerKey(ev, z) &&
           Server(ev.channel, z) == Some(a.entry.url))
  {
    NestedFrom(evs, cachedKeys, today, now, table, r);
    var g, z :| 0 <= g < |evs| && 1 <= z <= 3 && Current(evs[g], today, now) &&
      r == ServerResult(evs[g], z, cachedKeys, table);
    assert evs[g] in evs;
    ServedFrom(evs, cachedKeys, today, now, table, evs[g], z, r);
  }

  /** Every outcome among the servers' outcomes is that of a server of a current event. */
  lemma NestedFrom(evs: seq<PixelEvent>, cachedKeys: set<string>, today: int, now: int, table: Table,
                   r: Result<Option<Attempt>>)
    requires r in Concat(Nested(evs, cachedKeys, today, now, table))
    ensures exists g, z :: (0 <= g < |evs| && 1 <= z <= 3 && Current(evs[g], today, now) &&
      r == ServerResult(evs[g], z, cachedKeys, table))
  {
    var xss := Nested(evs, cachedKeys, today, now, table);
    ConcatMember(xss, r);
    var g :| 0 <= g < |xss| && r in xss[g];
    var c :| 0 <= c < |xss[g]| && xss[g][c] == r;
    var rs := EventResults(evs[g], cachedKeys, today, now, table);
    assert xss[g] == rs;
    EventResultsAt(evs[g], cachedKeys, today, now, table);
    assert rs[(c + 1) - 1] == ServerResult(evs[g], c + 1, cachedKeys, table);
  }

  /** The attempt of server `z` of a current event of `evs`. */
  lemma ServedFrom(evs: seq<PixelEvent>, cachedKeys: set<string>, today: int, now: int, table: Table,
                   ev: PixelEvent, z: nat, r: Result<Option<Attempt>>)
    requires ev in evs && 1 <= z <= 3 && Current(ev, today, now)
    requires r == ServerResult(ev, z, cachedKeys, table) && r.Ok? && r.value.Some?
    ensures var a := r.value.value;
      && a.key !in cachedKeys && HasStreamUrl(a.entry.url) && IsLive(a.entry)
      && a.entry.base == EntryBase && Within(a.entry.timestamp, Clean(now), 1800, 1800)
      && exists ev, z :: (ev in evs && 1 <= z <= 3 && Current(ev, today, now) && a.key == ServerKey(ev, z) &&
           Server(ev.channel, z) == Some(a.entry.url))
  {
    ServerResultSound(ev, z, cachedKeys, table);
  }

  /**
   * Conversely, when collection succeeds, every server of a current event
   * whose link holds a stream URL and whose key is not cached has an entry.
   */
  lemma CollectComplete(evs: seq<PixelEvent>, cachedKeys: set<string>, today: int, now: int, table: Table,
                        g: nat, z: nat)
    requires g < |evs| && 1 <= z <= 3 && Current(evs[g], today, now)
    requires Collect(evs, cachedKeys, today, now, table).Ok?
    requires var link := Server(evs[g].channel, z);
      link.Some? && link.value != "" && HasStreamUrl(link.value) && ServerKey(evs[g], z) !in cachedKeys
    ensures ServerKey(evs[g], z) in Collect(evs, cachedKeys, today, now, table).value
  {
    var xss := Nested(evs, cachedKeys, today, now, table);
    assert xss[g] == EventResults(evs[g], cachedKeys, today, now, table);
    var r := xss[g][z - 1];
    assert r == ServerResult(evs[g], z, cachedKeys, table);
    if r.Err? {
      KeepNestedFails(xss, g, z - 1);
    }
    assert r.Ok? && r.value.Some?;
    ServerResultSound(evs[g], z, cachedKeys, table);
    KeepNestedComplete(xss, g, z - 1);
    var atts := Keep(Concat(xss)).value;
    var a := r.value.value;
    SelectedKeysMeaning(atts, false);
    assert a.key in SelectedKeys(atts, false);
  }

  /** The API data `get_events` reads: the cached blob, else a fresh fetch, else `{}`. */
  function ApiData(cachedApi: Option<Api>, fetched: Option<Api>): Api
  {
    if cachedApi.Some? then cachedApi.value else if fetched.Some? then fetched.value else Api(None)
  }

  /**
   * What one `scrape` leaves behind, as (cache written, live map): a missing
   * "events" member raises `KeyError`; otherwise the collected entries are
   * merged over the cache, and the live map is the same merge.
   */
  function Run(cached: map<string, Entry>, cachedApi: Option<Api>, fetched: Option<Api>, today: int, now: int,
               table: Table): Result<(map<string, Entry>, map<string, Entry>)>
  {
    match ApiData(cachedApi, fetched).events
    case None => Err(KeyError)
    case Some(evs) =>
      match Collect(evs, cached.Keys, today, now, table)
      case Err(e) => Err(e)
      case Ok(events) => Ok((cached + events, cached + events))
  }

  /** `scrape`: collection, then `d |= events` on both maps. */
  method Scrape(cached: map<string, Entry>, cachedApi: Option<Api>, fetched: Option<Api>, today: int, now: int,
                table: Table) returns (r: Result<(map<string, Entry>, map<string, Entry>)>)
    ensures r == Run(cached, cachedApi, fetched, today, now, table)
  {
    var apiData := cachedApi;
    if apiData.None? {
      apiData := if fetched.Some? then fetched else Some(Api(None));
    }
    if apiData.value.events.None? {
      return Err(KeyError);
    }
    var events := GetEvents(apiData.value.events.value, cached.Keys, today, now, table);
    if events.Err? {
      return Err(events.error);
    }
    var cache, live := cached, cached;
    if events.value != map[] {
      cache := cache + events.value;
      live := live + events.value;
    } else {
      assert cached + events.value == cached;
    }
    r := Ok((cache, live));
  }

  /**
   * After a successful run both maps are the cache plus the new entries, no
   * cached entry is replaced, and the new count is the number of entries
   * collected.
   */
  lemma RunStores(cached: map<string, Entry>, cachedApi: Option<Api>, fetched: Option<Api>, today: int, now: int,
                  table: Table)
    requires Run(cached, cachedApi, fetched, today, now, table).Ok?
    ensures var (c, l) := Run(cached, cachedApi, fetched, today, now, table).value;
      var events := Collect(ApiData(cachedApi, fetched).events.value, cached.Keys, today, now, table).value;
      && c == l && c.Keys == cached.Keys + events.Keys
      && (forall k :: k in cached ==> c[k] == cached[k])
      && |c| - |cached| == |events|
  {
    var evs := ApiData(cachedApi, fetched).events.value;
    var events := Collect(evs, cached.Keys, today, now, table).value;
    CollectFresh(evs, cached.Keys, today, now, table);
    MergeFresh(cached, events);
  }

  /** No collected key is a cached one. */
  lemma CollectFresh(evs: seq<PixelEvent>, cachedKeys: set<string>, today: int, now: int, table: Table)
    requires Collect(evs, cachedKeys, today, now, table).Ok?
    ensures cachedKeys * Collect(evs, cachedKeys, today, now, table).value.Keys == {}
  {
    CollectSound(evs, cachedKeys, today, now, table);
  }

  lemma MergeFresh(cached: map<string, Entry>, events: map<string, Entry>)
    requires cached.Keys * events.Keys == {}
    ensures (cached + events).Keys == cached.Keys + events.Keys
    ensures forall k :: k in cached ==> (cached + events)[k] == cached[k]
    ensures |cached + events| - |cached| == |events|
  {
    var c := cached + events;
    assert c.Keys == cached.Keys + events.Keys;
    UnionSize(cached.Keys, events.Keys);
    forall k | k in events.Keys ensures k !in cached.Keys {
      assert k !in cached.Keys * events.Keys;
    }
    assert events.Keys - cached.Keys == events.Keys;
    assert |c.Keys| == |c| && |cached.Keys| == |cached| && |events.Keys| == |events|;
  }
}
