/**
 * M3U8/scrapers/watchfooty.py: the WatchFooty adapter. It reads a cached or
 * freshly fetched list of API matches, keeps the uncached ones starting within
 * half an hour of now, resolves each through the browser, and records every
 * attempt in its cache (tombstoning the failures).
 */
module Watchfooty {
  import opened Outcomes
  import opened Text
  import opened Config
  import opened Store
  import Webwork

  const Tag := "WFTY"

  /** `MIRRORS`, in priority order. */
  const Mirrors := ["https://www.watchfooty.cc", "https://www.watchfooty.vip", "https://www.watchfooty.live"]

  /** A JSON field of an API match: missing, `null`, or a number. */
  datatype Field = Absent | Null | Num(n: int)

  /**
   * One match object of the API: its id, title, league, optional poster, and
   * the two time fields the adapter moves around ("timestamp" as delivered in
   * milliseconds, "ts" after renaming).
   */
  datatype ApiMatch = ApiMatch(matchId: string, title: string, league: string, poster: Option<string>,
                               timestamp: Field, ts: Field)

  /** One discovered event, as `get_events` returns it. */
  datatype Event = Event(sport: string, name: string, link: string, logo: Option<string>, timestamp: int)

  /**
   * What `refresh_api_cache` makes of the fetched matches: each match's
   * "timestamp" moved to "ts" (`pop` raises `KeyError` when it is missing), then
   * the last match stamped with the fetch time (`IndexError` on an empty list).
   */
  function Refreshed(data: seq<ApiMatch>, now: int): (r: Result<seq<ApiMatch>>)
    ensures r.Ok? ==> |r.value| == |data| && data != []
    ensures r.Ok? ==> forall i :: 0 <= i < |data| ==>
      r.value[i] == data[i].(ts := data[i].timestamp, timestamp := if i == |data| - 1 then Num(now) else Absent)
    ensures r.Err? <==> data == [] || exists i :: 0 <= i < |data| && data[i].timestamp.Absent?
    ensures data == [] ==> r == Err(IndexError)
  {
    if exists i :: 0 <= i < |data| && data[i].timestamp.Absent? then Err(KeyError)
    else if data == [] then Err(IndexError)
    else
      Ok(seq(|data|, i requires 0 <= i < |data| =>
        data[i].(ts := data[i].timestamp, timestamp := if i == |data| - 1 then Num(now) else Absent)))
  }

  /** `refresh_api_cache` after the fetches: the in-place renaming loop and the final stamp. */
  method RefreshApiCache(fetched: seq<ApiMatch>, now: int) returns (r: Result<seq<ApiMatch>>)
    ensures r == Refreshed(fetched, now)
  {
    var data: seq<ApiMatch> := [];
    var i := 0;
    while i < |fetched|
      invariant 0 <= i <= |fetched| && |data| == i
      invariant forall j :: 0 <= j < i ==> !fetched[j].timestamp.Absent?
      invariant forall j :: 0 <= j < i ==> data[j] == fetched[j].(ts := fetched[j].timestamp, timestamp := Absent)
    {
      var ev := fetched[i];
      if ev.timestamp.Absent? {
        assert Refreshed(fetched, now).Err?;
        return Err(KeyError);
      }
      data := data + [ev.(ts := ev.timestamp, timestamp := Absent)];
      i := i + 1;
    }
    if |data| == 0 {
      return Err(IndexError);
    }
    data := data[|data| - 1 := data[|data| - 1].(timestamp := Num(now))];
    r := Ok(data);
    assert Refreshed(fetched, now).Ok?;
    assert Refreshed(fetched, now).value == data;
  }

  /**
   * `int(str(ts)[:-3])`: milliseconds to seconds by dropping the last three
   * characters of the decimal text; fewer than four digits leave nothing a
   * number can be read from.
   */
  function MsToSeconds(ms: int): Result<int>
  {
    var text := IntToString(ms);
    if |text| < 3 then Err(ValueError) else ParseInt(text[..|text| - 3])
  }

  /** Printing a number of at least 10 prints its tenth, then its last digit. */
  lemma NatToStringLast(n: nat)
    requires n >= 10
    ensures NatToString(n) == NatToString(n / 10) + [DigitChar(n % 10)]
  {
  }

  lemma ThreeTenths(n: nat)
    ensures n / 10 / 10 / 10 == n / 1000
  {
    var a := n / 10;
    var b := a / 10;
    var c := b / 10;
    assert n == 10 * a + n % 10;
    assert a == 10 * b + a % 10;
    assert b == 10 * c + b % 10;
    assert n == 1000 * c + (100 * (b % 10) + 10 * (a % 10) + n % 10);
  }

  lemma NatToStringDrop3(n: nat)
    requires n >= 1000
    ensures |NatToString(n)| > 3 && NatToString(n)[..|NatToString(n)| - 3] == NatToString(n / 1000)
  {
    var a := n / 10;
    var b := a / 10;
    ThreeTenths(n);
    assert b >= 10 && a >= 10;
    NatToStringLast(n);
    NatToStringLast(a);
    NatToStringLast(b);
    var r3 := NatToString(b / 10);
    var tail := [DigitChar(b % 10), DigitChar(a % 10), DigitChar(n % 10)];
    assert NatToString(n) == r3 + tail;
    assert (r3 + tail)[..|r3|] == r3;
  }

  /** A number below 1000 prints in at most three digits. */
  lemma NatToStringShort(n: nat)
    requires n < 1000
    ensures |NatToString(n)| <= 3
  {
    if n >= 10 {
      NatToStringLast(n);
      if n / 10 >= 10 {
        NatToStringLast(n / 10);
      }
    }
  }

  /**
   * The conversion truncates toward zero: it is `ms / 1000` for at least 1000
   * milliseconds and `-(|ms| / 1000)` for at most -1000; strictly between -1000
   * and 1000 nothing, or only the sign, is left to read and it raises
   * `ValueError`.
   */
  lemma MsToSecondsMeaning(ms: int)
    ensures ms >= 1000 ==> MsToSeconds(ms) == Ok(ms / 1000)
    ensures ms <= -1000 ==> MsToSeconds(ms) == Ok(-((-ms) / 1000))
    ensures -1000 < ms < 1000 ==> MsToSeconds(ms) == Err(ValueError)
  {
    if ms >= 1000 {
      MsToSecondsPositive(ms);
    } else if ms <= -1000 {
      MsToSecondsNegative(ms);
    } else {
      MsToSecondsShort(ms);
    }
  }

  lemma MsToSecondsPositive(ms: int)
    requires ms >= 1000
    ensures MsToSeconds(ms) == Ok(ms / 1000)
  {
    NatToStringDrop3(ms);
    IntToStringRoundTrip(ms / 1000);
  }

  lemma MsToSecondsNegative(ms: int)
    requires ms <= -1000
    ensures MsToSeconds(ms) == Ok(-((-ms) / 1000))
  {
    var secs := -((-ms) / 1000);
    NegativePrefix(ms, secs);
    DropMillis(ms, secs);
  }

  /** When the text left after dropping three characters prints `secs`, the conversion gives `secs`. */
  lemma DropMillis(ms: int, secs: int)
    requires var t := IntToString(ms); |t| >= 3 && t[..|t| - 3] == IntToString(secs)
    ensures MsToSeconds(ms) == Ok(secs)
  {
    var t := IntToString(ms);
    MsToSecondsUnfold(ms);
    ReadBack(t[..|t| - 3], secs);
  }

  lemma ReadBack(p: string, i: int)
    requires p == IntToString(i)
    ensures ParseInt(p) == Ok(i)
  {
    IntToStringRoundTrip(i);
  }

  /** Dropping three digits from a negative number's text prints the truncated quotient. */
  lemma NegativePrefix(ms: int, secs: int)
    requires ms <= -1000 && secs == -((-ms) / 1000)
    ensures var t := IntToString(ms); |t| >= 3 && t[..|t| - 3] == IntToString(secs)
  {
    var q := (-ms) / 1000;
    NatToStringDrop3(-ms);
    var t := IntToString(ms);
    assert t == "-" + NatToString(-ms);
    assert t[..|t| - 3] == "-" + NatToString(q);
    assert IntToString(secs) == "-" + NatToString(q);
  }

  lemma MsToSecondsUnfold(ms: int)
    requires |IntToString(ms)| >= 3
    ensures MsToSeconds(ms) == ParseInt(IntToString(ms)[..|IntToString(ms)| - 3])
  {
  }

  lemma MsToSecondsShort(ms: int)
    requires -1000 < ms < 1000
    ensures MsToSeconds(ms) == Err(ValueError)
  {
    var t := IntToString(ms);
    NatToStringShort(if ms < 0 then -ms else ms);
    if |t| >= 3 {
      var p := t[..|t| - 3];
      assert p == "" || p == "-" by {
        if ms < 0 {
          assert t == "-" + NatToString(-ms) && t[0] == '-';
          assert |p| <= 1 && (|p| == 1 ==> p[0] == t[0]);
        }
      }
      ShortPrefixRefused(p);
    }
  }

  /** Neither nothing nor a bare minus sign reads as a number. */
  lemma ShortPrefixRefused(p: string)
    requires p == "" || p == "-"
    ensures ParseInt(p) == Err(ValueError)
  {
    StripUnchanged(p);
  }

  /** The index of the first '-' or '(' in `s`, or `|s|`. */
  function LeagueCut(s: string): (r: nat)
    ensures r <= |s|
    ensures forall i :: 0 <= i < r ==> s[i] != '-' && s[i] != '('
    ensures r < |s| ==> s[r] == '-' || s[r] == '('
    decreases |s|
  {
    if s == [] || s[0] == '-' || s[0] == '(' then 0 else 1 + LeagueCut(s[1..])
  }

  /** `re.split(r"\-+|\(", league, 1)[0].strip()`: the league text before its first dash or parenthesis. */
  function SportOf(league: string): (sport: string)
  {
    Strip(league[..LeagueCut(league)])
  }

  /** A league without dash or parenthesis is its own sport label, stripped. */
  lemma SportOfPlain(league: string)
    requires forall i :: 0 <= i < |league| ==> league[i] != '-' && league[i] != '('
    ensures SportOf(league) == Strip(league)
  {
    assert league[..LeagueCut(league)] == league;
  }

  /** `event.get("ts")`, when truthy. */
  function TruthyTs(f: Field): Option<int>
  {
    if f.Num? && f.n != 0 then Some(f.n) else None
  }

  /**
   * One iteration of `get_events`: skip a match without a truthy "ts" or outside
   * the window [clean(now) - 30 min, clean(now) + 30 min], or whose key is cached;
   * a "ts" too short to convert raises.
   */
  function Classify(m: ApiMatch, baseUrl: string, cachedKeys: set<string>, now: int,
                    urljoin: (string, string) -> string): Result<Option<Event>>
  {
    match TruthyTs(m.ts)
    case None => Ok(None)
    case Some(ms) =>
      match MsToSeconds(ms)
      case Err(e) => Err(e)
      case Ok(start) =>
        if !Within(start, Clean(now), 1800, 1800) then Ok(None)
        else
          var sport := SportOf(m.league);
          var logo := if m.poster.Some? && m.poster.value != "" then Some(urljoin(baseUrl, m.poster.value)) else None;
          if Key(sport, m.title, Tag) in cachedKeys then Ok(None)
          else Ok(Some(Event(sport, m.title, urljoin(baseUrl, "stream/" + m.matchId), logo, start)))
  }

  function Classified(data: seq<ApiMatch>, baseUrl: string, cachedKeys: set<string>, now: int,
                      urljoin: (string, string) -> string): seq<Result<Option<Event>>>
  {
    seq(|data|, i requires 0 <= i < |data| => Classify(data[i], baseUrl, cachedKeys, now, urljoin))
  }

  /** The loop of `get_events` over the API data. */
  method GetEvents(data: seq<ApiMatch>, baseUrl: string, cachedKeys: set<string>, now: int,
                   urljoin: (string, string) -> string) returns (r: Result<seq<Event>>)
    ensures r == Keep(Classified(data, baseUrl, cachedKeys, now, urljoin))
  {
    var rs := Classified(data, baseUrl, cachedKeys, now, urljoin);
    var events: seq<Event> := [];
    var i := 0;
    while i < |data|
      invariant 0 <= i <= |data|
      invariant Keep(rs[..i]) == Ok(events)
    {
      KeepStep(rs, i);
      var c := Classify(data[i], baseUrl, cachedKeys, now, urljoin);
      match c {
        case Err(e) =>
          KeepErrPersists(rs, i + 1, |rs|);
          assert rs[..|rs|] == rs;
          return Err(e);
        case Ok(None) =>
        case Ok(Some(ev)) =>
          events := events + [ev];
      }
      i := i + 1;
    }
    assert rs[..i] == rs;
    r := Ok(events);
  }

  /**
   * Every returned event starts inside the inclusive window around the
   * minute-floored now, and its key was not cached.
   */
  lemma GetEventsSound(data: seq<ApiMatch>, baseUrl: string, cachedKeys: set<string>, now: int,
                       urljoin: (string, string) -> string)
    ensures var r := Keep(Classified(data, baseUrl, cachedKeys, now, urljoin));
      r.Ok? ==> forall ev :: ev in r.value ==>
        Within(ev.timestamp, Clean(now), 1800, 1800) && Key(ev.sport, ev.name, Tag) !in cachedKeys
  {
    var rs := Classified(data, baseUrl, cachedKeys, now, urljoin);
    KeepAll(rs, (ev: Event) => Within(ev.timestamp, Clean(now), 1800, 1800) && Key(ev.sport, ev.name, Tag) !in cachedKeys);
  }

  /**
   * Every match with a truthy "ts" that converts to a start inside the window,
   * and whose key is not cached, is returned, with its link and start.
   */
  lemma GetEventsComplete(data: seq<ApiMatch>, baseUrl: string, cachedKeys: set<string>, now: int,
                          urljoin: (string, string) -> string, i: nat)
    requires i < |data|
    requires Keep(Classified(data, baseUrl, cachedKeys, now, urljoin)).Ok?
    requires TruthyTs(data[i].ts).Some?
    requires MsToSeconds(TruthyTs(data[i].ts).value).Ok?
    requires Within(MsToSeconds(TruthyTs(data[i].ts).value).value, Clean(now), 1800, 1800)
    requires Key(SportOf(data[i].league), data[i].title, Tag) !in cachedKeys
    ensures exists ev :: (ev in Keep(Classified(data, baseUrl, cachedKeys, now, urljoin)).value &&
      ev.sport == SportOf(data[i].league) && ev.name == data[i].title &&
      ev.link == urljoin(baseUrl, "stream/" + data[i].matchId) &&
      ev.timestamp == MsToSeconds(TruthyTs(data[i].ts).value).value)
  {
    var rs := Classified(data, baseUrl, cachedKeys, now, urljoin);
    assert rs[i] == Classify(data[i], baseUrl, cachedKeys, now, urljoin);
    var ev := rs[i].value.value;
    assert ev.link == urljoin(baseUrl, "stream/" + data[i].matchId);
    KeepComplete(rs, i);
  }

  /**
   * The first `(<digits>)` in the stream-links header: the leftmost '(' followed
   * by one or more digits and a ')'.
   */
  function ParenCount(text: string, k: nat): (r: Option<nat>)
    requires k <= |text|
    decreases |text| - k
  {
    if k == |text| then None
    else if text[k] == '(' && k + 1 < |text| && IsDigit(text[k + 1]) then
      var e := DigitEnd(text, k + 1);
      if e < |text| && text[e] == ')' then Some(DigitsValue(text[k + 1..e])) else ParenCount(text, k + 1)
    else ParenCount(text, k + 1)
  }

  function DigitEnd(s: string, k: nat): (r: nat)
    requires k <= |s|
    ensures k <= r <= |s| && AllDigits(s[k..r])
    ensures r < |s| ==> !IsDigit(s[r])
    decreases |s| - k
  {
    if k < |s| && IsDigit(s[k]) then DigitEnd(s, k + 1) else k
  }

  /** The stream-links header appeared and its "(N)" count is present and not zero. */
  predicate HasStreams(header: Option<string>)
  {
    header.Some? && ParenCount(header.value, 0).Some? && ParenCount(header.value, 0).value != 0
  }

  /**
   * `process_event`: no answer when the stream-links header never appears, or
   * its "(N)" count is missing or zero, or the page failed, or no request was
   * accepted; otherwise the latest accepted request.
   */
  function ProcessEvent(header: Option<string>, loaded: bool, requests: seq<string>): (r: Option<string>)
    ensures r.Some? <==>
      HasStreams(header) && loaded && exists i :: 0 <= i < |requests| && Webwork.IsStreamRequest(requests[i])
    ensures r.Some? ==> exists i :: (0 <= i < |requests| && Webwork.IsStreamRequest(requests[i]) &&
      r.value == requests[i] && forall j :: i < j < |requests| ==> !Webwork.IsStreamRequest(requests[j]))
  {
    match header
    case None => None
    case Some(text) =>
      var count := ParenCount(text, 0);
      if count.None? || count.value == 0 then None else Webwork.LastCaptured(loaded, requests)
  }

  /** The attempt `scrape` makes for one event: the tvg lookup may raise. */
  function AttemptFor(ev: Event, url: Option<string>, baseUrl: string, table: Table): (r: Result<Option<Attempt>>)
    ensures r.Ok? ==> r.value.Some? && r.value.value.key == Key(ev.sport, ev.name, Tag)
    ensures r.Ok? ==> var e := r.value.value.entry;
      e.url == UrlText(url) && e.base == baseUrl && e.timestamp == ev.timestamp && e.id != "" && e.href.None? &&
      (ev.logo.Some? && ev.logo.value != "" ==> e.logo == ev.logo.value)
    ensures r.Err? <==> GetTvgInfo(table, ev.sport, ev.name).Err?
  {
    match GetTvgInfo(table, ev.sport, ev.name)
    case Err(e) => Err(e)
    case Ok((tvgId, pic)) =>
      var logo := if ev.logo.Some? && ev.logo.value != "" then ev.logo.value else pic;
      Ok(Some(Attempt(Key(ev.sport, ev.name, Tag), Entry(UrlText(url), logo, baseUrl, ev.timestamp, IdOr(tvgId), None))))
  }

  function Attempts(events: seq<Event>, resolve: string -> Option<string>, baseUrl: string, table: Table)
    : seq<Result<Option<Attempt>>>
  {
    seq(|events|, i requires 0 <= i < |events| => AttemptFor(events[i], resolve(events[i].link), baseUrl, table))
  }

  /**
   * `scrape`. The live map starts from the cached entries with a URL; with no
   * working mirror the cache is written back unchanged. Otherwise the API data
   * (the cached blob, or a refresh when there is none) yields the events, each
   * is resolved, and every attempt is recorded under tombstoning. `valid` is the
   * number of new URLs found.
   */
  method Scrape(cached: map<string, Entry>, probes: seq<Webwork.Probe>, apiBlob: seq<ApiMatch>,
                fetched: seq<ApiMatch>, now: int, resolve: string -> Option<string>, table: Table,
                urljoin: (string, string) -> string)
    returns (r: Result<(map<string, Entry>, map<string, Entry>)>, valid: nat)
    requires |probes| == |Mirrors|
    ensures Webwork.GetBase(Mirrors, probes).None? ==> r == Ok((cached, Seed(Tombstone, cached))) && valid == 0
    ensures Webwork.GetBase(Mirrors, probes).Some? ==>
      var base := Webwork.GetBase(Mirrors, probes).value;
      var data := if apiBlob != [] then Ok(apiBlob) else Refreshed(fetched, now);
      r == match data
        case Err(e) => Err(e)
        case Ok(d) =>
          match Keep(Classified(d, base, cached.Keys, now, urljoin))
          case Err(e) => Err(e)
          case Ok(events) => Outcome(Tombstone, cached, Seed(Tombstone, cached), Attempts(events, resolve, base, table))
    ensures Webwork.GetBase(Mirrors, probes).Some? && r.Ok? ==>
      var base := Webwork.GetBase(Mirrors, probes).value;
      var d := if apiBlob != [] then apiBlob else Refreshed(fetched, now).value;
      var events := Keep(Classified(d, base, cached.Keys, now, urljoin)).value;
      valid == CountLive(Keep(Attempts(events, resolve, base, table)).value)
  {
    var urls := Seed(Tombstone, cached);
    valid := 0;
    var baseUrl := Webwork.GetBase(Mirrors, probes);
    if baseUrl.None? {
      return Ok((cached, urls)), 0;
    }
    var apiData := apiBlob;
    if apiData == [] {
      var refreshed := RefreshApiCache(fetched, now);
      if refreshed.Err? {
        return Err(refreshed.error), 0;
      }
      apiData := refreshed.value;
    }
    var events := GetEvents(apiData, baseUrl.value, cached.Keys, now, urljoin);
    if events.Err? {
      return Err(events.error), 0;
    }
    r, valid := RecordAttempts(Tombstone, cached, urls, Attempts(events.value, resolve, baseUrl.value, table));
  }

  /**
   * After a successful run every attempted key is in the written cache, the
   * live map holds exactly the cached entries with a URL plus this run's URLs,
   * and every live entry has a URL.
   */
  lemma ScrapeRecordsEveryAttempt(cached: map<string, Entry>, atts: seq<Attempt>)
    ensures var (c, l) := RecordAll(Tombstone, cached, Seed(Tombstone, cached), atts);
      && c.Keys == cached.Keys + (set i | 0 <= i < |atts| :: atts[i].key)
      && l.Keys == Seed(Tombstone, cached).Keys + (set i | 0 <= i < |atts| && IsLive(atts[i].entry) :: atts[i].key)
      && forall k :: k in l ==> IsLive(l[k])
  {
    RecordAllTombstoneKeys(cached, Seed(Tombstone, cached), atts);
    RecordAllLive(Tombstone, cached, Seed(Tombstone, cached), atts);
  }
}
