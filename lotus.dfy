/**
 * M3U8/scrapers/lotus.py: the Lotus adapter. Its API lists days of items;
 * today's items outside the "channel tv" league that carry a first stream
 * link and are not cached are resolved, and only those that produce a URL
 * are stored.
 */
module Lotus {
  import opened Outcomes
  import opened Text
  import opened Config
  import opened Store

  const Tag := "LOTUS"
  const EntryBase := "https://vividmosaica.com/"

  /** The league whose items are never scraped. */
  const ChannelTv := "channel tv"

  /** Every word capitalised, in order. */
  function CapWords(ws: seq<string>): (r: seq<string>)
    ensures |r| == |ws|
  {
    seq(|ws|, i requires 0 <= i < |ws| => Capitalize(ws[i]))
  }

  /**
   * `fix_league`: a league name longer than five characters becomes its
   * capitalised words joined by single spaces; a shorter one is upper-cased.
   */
  function FixLeague(s: string): (r: string)
    ensures |s| <= 5 ==> |r| == |s|
  {
    if |s| > 5 then Join(" ", CapWords(Words(s))) else Upper(s)
  }

  /**
   * A long league name keeps its words, each capitalised: the whitespace
   * between them is normalised to single spaces and nothing else changes.
   */
  lemma FixLeagueWords(s: string)
    requires |s| > 5
    ensures Words(FixLeague(s)) == CapWords(Words(s))
  {
    var ws := Words(s);
    WordsSpaceFree(s);
    forall i | 0 <= i < |ws| ensures CapWords(ws)[i] != [] && SpaceFree(CapWords(ws)[i]) {
      CapitalizeKeepsWord(ws[i]);
    }
    WordsJoin(CapWords(ws));
  }

  /**
   * Fixing a fixed league name changes nothing, unless a long name shrank to
   * five characters or fewer (as "  nfl  " becomes "Nfl", then "NFL").
   */
  lemma FixLeagueIdempotent(s: string)
    requires |s| <= 5 || |FixLeague(s)| > 5
    ensures FixLeague(FixLeague(s)) == FixLeague(s)
  {
    var r := FixLeague(s);
    if |s| > 5 {
      FixLeagueWords(s);
      var ws := CapWords(Words(s));
      forall i | 0 <= i < |ws| ensures CapWords(ws)[i] == ws[i] {
        CaseIdempotent(Words(s)[i]);
      }
      assert CapWords(ws) == ws;
    } else {
      CaseIdempotent(s);
    }
  }

  /**
   * One API item: "league", "title" and the "link" of each of its "streams"
   * (`None` when a stream has no "link").
   */
  datatype Item = Item(league: string, title: string, links: seq<Option<string>>)

  /**
   * One API day: its "day_et" date as a day number, `None` when it is not in
   * the "%Y-%m-%d" form `Time.from_str` is given (which then raises
   * `ValueError`), and its items.
   */
  datatype Day = Day(date: Option<int>, items: seq<Item>)

  /**
   * A decoded API answer, reduced to its "days" member, which is absent from
   * the `{}` that `refresh_api_cache` returns after a failed fetch.
   */
  datatype Api = Api(days: Option<seq<Day>>)

  datatype Event = Event(sport: string, name: string, link: string)

  /**
   * One item of today's list: the "channel tv" league is skipped, an item
   * without streams raises `IndexError`, one whose first stream has no link is
   * skipped, and so is one whose key is cached.
   */
  function Classify(it: Item, cachedKeys: set<string>): Result<Option<Event>>
  {
    if it.league == ChannelTv then Ok(None)
    else if it.links == [] then Err(IndexError)
    else if it.links[0].None? || it.links[0].value == "" then Ok(None)
    else
      var sport := FixLeague(it.league);
      if Key(sport, it.title, Tag) in cachedKeys then Ok(None)
      else Ok(Some(Event(sport, it.title, it.links[0].value)))
  }

  /**
   * The per-item outcomes of one day: the `ValueError` of a date that does not
   * parse, none at all for a day other than today.
   */
  function DayResults(d: Day, today: int, cachedKeys: set<string>): seq<Result<Option<Event>>>
  {
    if d.date.None? then [Err(ValueError)]
    else if d.date.value != today then []
    else seq(|d.items|, i requires 0 <= i < |d.items| => Classify(d.items[i], cachedKeys))
  }

  function Nested(days: seq<Day>, today: int, cachedKeys: set<string>): seq<seq<Result<Option<Event>>>>
  {
    seq(|days|, j requires 0 <= j < |days| => DayResults(days[j], today, cachedKeys))
  }

  /** What `get_events` returns, or raises, for the given days. */
  function Discover(days: seq<Day>, today: int, cachedKeys: set<string>): Result<seq<Event>>
  {
    Keep(Concat(Nested(days, today, cachedKeys)))
  }

  /** The body of the inner loop of `get_events`, for one item. */
  method ProcessItem(it: Item, cachedKeys: set<string>) returns (out: Result<Option<Event>>)
    ensures out == Classify(it, cachedKeys)
  {
    if it.league == ChannelTv {
      return Ok(None);
    }
    if it.links == [] {
      return Err(IndexError);
    }
    var link := it.links[0];
    if link.None? || link.value == "" {
      return Ok(None);
    }
    var sport := FixLeague(it.league);
    if Key(sport, it.title, Tag) in cachedKeys {
      return Ok(None);
    }
    out := Ok(Some(Event(sport, it.title, link.value)));
  }

  /** The inner loop of `get_events`: one day's items, none for a day other than today. */
  method ScanDay(day: Day, today: int, cachedKeys: set<string>) returns (r: Result<seq<Event>>)
    ensures r == Keep(DayResults(day, today, cachedKeys))
  {
    var rs := DayResults(day, today, cachedKeys);
    if day.date.None? {
      KeepStep(rs, 0);
      return Err(ValueError);
    }
    if day.date.value != today {
      return Ok([]);
    }
    var found: seq<Event> := [];
    var j := 0;
    while j < |day.items|
      invariant 0 <= j <= |day.items|
      invariant Keep(rs[..j]) == Ok(found)
    {
      KeepStep(rs, j);
      var out := ProcessItem(day.items[j], cachedKeys);
      match out {
        case Err(e) =>
          KeepErrPersists(rs, j + 1, |rs|);
          assert rs[..|rs|] == rs;
          return Err(e);
        case Ok(None) =>
        case Ok(Some(ev)) =>
          found := found + [ev];
      }
      j := j + 1;
    }
    assert rs[..j] == rs;
    r := Ok(found);
  }

  /** The nested loop of `get_events`. */
  method GetEvents(days: seq<Day>, today: int, cachedKeys: set<string>) returns (r: Result<seq<Event>>)
    ensures r == Discover(days, today, cachedKeys)
  {
    var xss := Nested(days, today, cachedKeys);
    var events: seq<Event> := [];
    var g := 0;
    while g < |days|
      invariant 0 <= g <= |days|
      invariant Keep(Concat(xss[..g])) == Ok(events)
    {
      var found := ScanDay(days[g], today, cachedKeys);
      assert xss[g] == DayResults(days[g], today, cachedKeys);
      KeepOuterStep(xss, g);
      if found.Err? {
        return Err(found.error);
      }
      events := events + found.value;
      g := g + 1;
    }
    assert xss[..|xss|] == xss;
    r := Ok(events);
  }

  /** The outcome of one item, stated by what it means. */
  lemma ClassifySound(it: Item, cachedKeys: set<string>)
    ensures Classify(it, cachedKeys).Err? <==> it.league != ChannelTv && it.links == []
    ensures Classify(it, cachedKeys).Err? ==> Classify(it, cachedKeys).error == IndexError
    ensures Classify(it, cachedKeys).Ok? && Classify(it, cachedKeys).value.Some? ==>
      var ev := Classify(it, cachedKeys).value.value;
      && it.league != ChannelTv && ev.sport == FixLeague(it.league) && ev.name == it.title
      && it.links != [] && it.links[0] == Some(ev.link) && ev.link != ""
      && Key(ev.sport, ev.name, Tag) !in cachedKeys
  {
  }

  /**
   * A day raises when its date does not parse, or when it is today and an
   * item outside "channel tv" has no streams.
   */
  predicate DayRaises(d: Day, today: int)
  {
    d.date.None? ||
    (d.date == Some(today) && exists it :: it in d.items && it.league != ChannelTv && it.links == [])
  }

  /** A day raises exactly when one of its outcomes is an error. */
  lemma DayRaisesMeaning(d: Day, today: int, cachedKeys: set<string>)
    ensures DayRaises(d, today) <==>
      exists c :: 0 <= c < |DayResults(d, today, cachedKeys)| && DayResults(d, today, cachedKeys)[c].Err?
  {
    var rs := DayResults(d, today, cachedKeys);
    if d.date == Some(today) {
      forall c | 0 <= c < |rs|
        ensures rs[c].Err? <==> d.items[c].league != ChannelTv && d.items[c].links == []
      {
        ClassifySound(d.items[c], cachedKeys);
      }
      if exists it :: it in d.items && it.league != ChannelTv && it.links == [] {
        var it :| it in d.items && it.league != ChannelTv && it.links == [];
        var c :| 0 <= c < |d.items| && d.items[c] == it;
        assert rs[c].Err?;
      }
      if exists c :: 0 <= c < |rs| && rs[c].Err? {
        var c :| 0 <= c < |rs| && rs[c].Err?;
        assert d.items[c] in d.items;
      }
    } else if d.date.None? {
      assert rs[0].Err?;
    }
  }

  /**
   * Discovery raises exactly when some day raises; the first such day decides
   * the error: `ValueError` for a date that does not parse, else `IndexError`.
   */
  lemma DiscoverRaises(days: seq<Day>, today: int, cachedKeys: set<string>)
    ensures Discover(days, today, cachedKeys).Err? <==> exists d :: d in days && DayRaises(d, today)
    ensures Discover(days, today, cachedKeys).Err? ==>
      exists g :: (0 <= g < |days| && DayRaises(days[g], today) && (forall h :: 0 <= h < g ==> !DayRaises(days[h], today)) &&
        Discover(days, today, cachedKeys).error == if days[g].date.None? then ValueError else IndexError)
  {
    if Discover(days, today, cachedKeys).Err? {
      var g := FirstRaisingDay(days, today, cachedKeys);
      assert days[g] in days;
    }
    if exists d :: d in days && DayRaises(d, today) {
      var xss := Nested(days, today, cachedKeys);
      var d :| d in days && DayRaises(d, today);
      var g :| 0 <= g < |days| && days[g] == d;
      assert xss[g] == DayResults(d, today, cachedKeys);
      DayRaisesMeaning(d, today, cachedKeys);
      var c :| 0 <= c < |xss[g]| && xss[g][c].Err?;
      KeepNestedFails(xss, g, c);
    }
  }

  /** The day at which a failed discovery failed: it raises, with its own error, and no earlier day does. */
  lemma FirstRaisingDay(days: seq<Day>, today: int, cachedKeys: set<string>) returns (g: nat)
    requires Discover(days, today, cachedKeys).Err?
    ensures g < |days| && DayRaises(days[g], today) && (forall h :: 0 <= h < g ==> !DayRaises(days[h], today))
    ensures Discover(days, today, cachedKeys).error == if days[g].date.None? then ValueError else IndexError
  {
    var xss := Nested(days, today, cachedKeys);
    var e := Discover(days, today, cachedKeys).error;
    assert xss[..|xss|] == xss;
    KeepNestedFirst(xss, |xss|);
    g :| 0 <= g < |days| && Keep(Concat(xss[..g])).Ok? && Keep(xss[g]) == Err(e);
    var d := days[g];
    assert xss[g] == DayResults(d, today, cachedKeys);
    KeepMeaning(xss[g]);
    var c :| 0 <= c < |xss[g]| && xss[g][c] == Err(e);
    DayRaisesMeaning(d, today, cachedKeys);
    if d.date.Some? {
      assert d.date == Some(today);
      ClassifySound(d.items[c], cachedKeys);
    }
    EarlierDaysPass(days, today, cachedKeys, g);
  }

  /** The days before a prefix of the nested run that ran through do not raise. */
  lemma EarlierDaysPass(days: seq<Day>, today: int, cachedKeys: set<string>, g: nat)
    requires g <= |days| && Keep(Concat(Nested(days, today, cachedKeys)[..g])).Ok?
    ensures forall h :: 0 <= h < g ==> !DayRaises(days[h], today)
  {
    var xss := Nested(days, today, cachedKeys);
    forall h | 0 <= h < g ensures !DayRaises(days[h], today) {
      assert xss[h] == DayResults(days[h], today, cachedKeys);
      forall c | 0 <= c < |xss[h]| ensures xss[h][c].Ok? {
        KeepPrefixGroups(xss, g, h, c);
      }
      DayRaisesMeaning(days[h], today, cachedKeys);
    }
  }

  /**
   * Every event comes from an item of today outside "channel tv": its sport
   * is the fixed league, its link the item's first stream link, and its key
   * is not cached.
   */
  lemma DiscoverSound(days: seq<Day>, today: int, cachedKeys: set<string>)
    ensures var r := Discover(days, today, cachedKeys);
      r.Ok? ==> forall ev :: ev in r.value ==>
        && ev.link != "" && Key(ev.sport, ev.name, Tag) !in cachedKeys
        && exists d, it :: (d in days && d.date == Some(today) && it in d.items && it.league != ChannelTv &&
             ev.sport == FixLeague(it.league) && ev.name == it.title && it.links != [] &&
             it.links[0] == Some(ev.link))
  {
    var xss := Nested(days, today, cachedKeys);
    var rs := Concat(xss);
    var P := (ev: Event) =>
      && ev.link != "" && Key(ev.sport, ev.name, Tag) !in cachedKeys
      && exists d, it :: (d in days && d.date == Some(today) && it in d.items && it.league != ChannelTv &&
           ev.sport == FixLeague(it.league) && ev.name == it.title && it.links != [] &&
           it.links[0] == Some(ev.link));
    forall i | 0 <= i < |rs| && rs[i].Ok? && rs[i].value.Some? ensures P(rs[i].value.value) {
      ConcatMember(xss, rs[i]);
      var s :| 0 <= s < |xss| && rs[i] in xss[s];
      var c :| 0 <= c < |xss[s]| && xss[s][c] == rs[i];
      var d := days[s];
      assert d.date == Some(today);
      var it := d.items[c];
      ClassifySound(it, cachedKeys);
      assert d in days && it in d.items;
    }
    KeepAll(rs, P);
  }

  /**
   * Conversely, when discovery succeeds, every item of today outside "channel
   * tv" with a first stream link and an uncached key is returned.
   */
  lemma DiscoverComplete(days: seq<Day>, today: int, cachedKeys: set<string>, g: nat, j: nat)
    requires g < |days| && j < |days[g].items| && days[g].date == Some(today)
    requires Discover(days, today, cachedKeys).Ok?
    requires var it := days[g].items[j];
      it.league != ChannelTv && it.links != [] && it.links[0].Some? && it.links[0].value != "" &&
      Key(FixLeague(it.league), it.title, Tag) !in cachedKeys
    ensures var it := days[g].items[j];
      Event(FixLeague(it.league), it.title, it.links[0].value) in Discover(days, today, cachedKeys).value
  {
    var xss := Nested(days, today, cachedKeys);
    ConcatSplitAt(xss, g, j);
    var pos := |Concat(xss[..g])| + j;
    assert Concat(xss)[pos] == xss[g][j];
    KeepComplete(Concat(xss), pos);
  }

  /** The API data `get_events` reads: the cached blob, else a fresh fetch, else `{}`. */
  function ApiData(cachedApi: Option<Api>, fetched: Option<Api>): Api
  {
    if cachedApi.Some? then cachedApi.value else if fetched.Some? then fetched.value else Api(None)
  }

  function Attempts(events: seq<Event>, resolve: string -> Option<string>, table: Table, runTs: int)
    : seq<Result<Option<Attempt>>>
  {
    seq(|events|, i requires 0 <= i < |events| =>
      var ev := events[i];
      Found(Key(ev.sport, ev.name, Tag), resolve(ev.link), GetTvgInfo(table, ev.sport, ev.name), None,
            EntryBase, runTs, None))
  }

  /**
   * What one `scrape` leaves behind, as (cache written, live map): a missing
   * "days" member raises `KeyError` and an item without streams `IndexError`;
   * otherwise each discovered event is resolved, stamped with the run's time,
   * and recorded if it produced a URL.
   */
  function Run(cached: map<string, Entry>, cachedApi: Option<Api>, fetched: Option<Api>, today: int, runTs: int,
               resolve: string -> Option<string>, table: Table): Result<(map<string, Entry>, map<string, Entry>)>
  {
    match ApiData(cachedApi, fetched).days
    case None => Err(KeyError)
    case Some(days) =>
      match Discover(days, today, cached.Keys)
      case Err(e) => Err(e)
      case Ok(events) => Outcome(DropOnFailure, cached, cached, Attempts(events, resolve, table, runTs))
  }

  /** `scrape`: discovery, then the resolution loop. */
  method Scrape(cached: map<string, Entry>, cachedApi: Option<Api>, fetched: Option<Api>, today: int, runTs: int,
                resolve: string -> Option<string>, table: Table)
    returns (r: Result<(map<string, Entry>, map<string, Entry>)>)
    ensures r == Run(cached, cachedApi, fetched, today, runTs, resolve, table)
  {
    var apiData := cachedApi;
    if apiData.None? {
      apiData := if fetched.Some? then fetched else Some(Api(None));
    }
    if apiData.value.days.None? {
      return Err(KeyError);
    }
    var found := GetEvents(apiData.value.days.value, today, cached.Keys);
    if found.Err? {
      return Err(found.error);
    }
    var added;
    r, added := RecordAttempts(DropOnFailure, cached, cached, Attempts(found.value, resolve, table, runTs));
  }

  /**
   * After a successful run the cache and the live map are equal; they hold
   * the cached entries and the resolved events, every new entry has a URL,
   * the Lotus base and the run's time, and the new count is the number of
   * new keys.
   */
  lemma RunStores(cached: map<string, Entry>, cachedApi: Option<Api>, fetched: Option<Api>, today: int, runTs: int,
                  resolve: string -> Option<string>, table: Table)
    requires Run(cached, cachedApi, fetched, today, runTs, resolve, table).Ok?
    ensures var (c, l) := Run(cached, cachedApi, fetched, today, runTs, resolve, table).value;
      var events := Discover(ApiData(cachedApi, fetched).days.value, today, cached.Keys).value;
      var atts := Keep(Attempts(events, resolve, table, runTs)).value;
      && c == l && c.Keys == cached.Keys + LiveKeys(atts)
      && |c| - |cached| == |LiveKeys(atts) - cached.Keys|
      && forall k :: k in c && k !in cached ==>
           IsLive(c[k]) && c[k].base == EntryBase && c[k].timestamp == runTs
  {
    var events := Discover(ApiData(cachedApi, fetched).days.value, today, cached.Keys).value;
    var outs := Attempts(events, resolve, table, runTs);
    var atts := Keep(outs).value;
    DropGrowth(cached, atts);
    var P := (a: Attempt) => IsLive(a.entry) && a.entry.base == EntryBase && a.entry.timestamp == runTs;
    forall i | 0 <= i < |outs| && outs[i].Ok? && outs[i].value.Some? ensures P(outs[i].value.value) {
      var ev := events[i];
      assert outs[i] == Found(Key(ev.sport, ev.name, Tag), resolve(ev.link), GetTvgInfo(table, ev.sport, ev.name),
        None, EntryBase, runTs, None);
    }
    KeepAll(outs, P);
    RecordAllIsOverlay(DropOnFailure, cached, cached, atts);
    forall k | k in Overlay(cached, atts, true) && k !in cached ensures P(Attempt(k, Overlay(cached, atts, true)[k])) {
      LatestIn(atts, k, true);
      var i :| 0 <= i < |atts| && atts[i].key == k && atts[i].entry == Latest(atts, k, true).value;
      assert atts[i] in atts;
    }
  }
}
