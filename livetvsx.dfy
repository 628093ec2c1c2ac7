/**
 * M3U8/scrapers/old/livetvsx.py: the legacy LiveTV.sx adapter. Items of the
 * upcoming-events RSS feed within half an hour of now are resolved in a
 * browser; every attempt is cached, even one that found no URL, so that it
 * is not retried while the cache lives.
 */
module Livetvsx {
  import opened Outcomes
  import opened Text
  import opened Config
  import opened Store
  import Webwork

  const Tag := "LTVSX"
  const EntryBase := "https://livetv.sx/enx/"

  /** How long a downloaded certificate bundle is reused: 30 days, in seconds. */
  const CertMaxAge := 30 * 86400

  /**
   * `get_cert`: the cached bundle is reused when the file exists and is
   * younger than 30 days; otherwise it is downloaded again.
   */
  predicate CertReusable(isFile: bool, mtime: int, now: int)
  {
    isFile && now - mtime < CertMaxAge
  }

  /**
   * An item's "pubDate" as `Time.from_str` without a format sees it: missing
   * or empty, matching none of its formats (it then returns `default_8`),
   * raising, or a time.
   */
  datatype PubDate = NoDate | Unmatched | Raising | Date(t: int)

  /** One RSS "item": its "title", "description" and "link" texts ("" when missing). */
  datatype Item = Item(title: string, desc: string, pub: PubDate, link: string)

  datatype Event = Event(sport: string, event: string, title: string, link: string, ts: int)

  /** `f"[{sport}: {event}] {title} (LTVSX)"` */
  function EventKey(sport: string, event: string, title: string): string
  {
    Key(sport + ": " + event, title, Tag)
  }

  /** A description splits in at least two parts exactly when it holds a ".". */
  lemma SplitDot(desc: string)
    ensures |Split(desc, ".")| >= 2 <==> Contains(desc, ".")
  {
  }

  /**
   * The sport and event label of a description: "" and "" for an empty one,
   * else its first two "."-parts stripped; `IndexError` without a ".".
   */
  function Labels(desc: string): Result<(string, string)>
  {
    if desc == "" then Ok(("", ""))
    else
      var parts := Split(desc, ".");
      if |parts| < 2 then Err(IndexError) else Ok((Strip(parts[0]), Strip(parts[1])))
  }

  /** A description has labels exactly when it is empty or holds a ".". */
  lemma LabelsMeaning(desc: string)
    ensures Labels(desc).Err? <==> desc != "" && !Contains(desc, ".")
    ensures Labels(desc).Err? ==> Labels(desc).error == IndexError
    ensures desc == "" ==> Labels(desc) == Ok(("", ""))
    ensures desc != "" && Contains(desc, ".") ==>
      |Split(desc, ".")| >= 2 && Labels(desc) == Ok((Strip(Split(desc, ".")[0]), Strip(Split(desc, ".")[1])))
  {
    SplitDot(desc);
  }

  /**
   * One item of `get_events`: skipped without a title, a date or a link,
   * when `from_str` raises, or outside half an hour of the minute, a date
   * matching no format counting as `default8`; a description without "."
   * raises `IndexError`; skipped when its key is cached.
   */
  function ItemResult(it: Item, now: int, default8: int, cachedKeys: set<string>): Result<Option<Event>>
  {
    if it.title == "" || it.pub.NoDate? || it.link == "" then Ok(None)
    else if it.pub.Raising? then Ok(None)
    else
      var t := if it.pub.Date? then it.pub.t else default8;
      if !Within(t, Clean(now), 1800, 1800) then Ok(None)
      else
        match Labels(it.desc)
        case Err(e) => Err(e)
        case Ok((sport, event)) =>
          if EventKey(sport, event, it.title) in cachedKeys then Ok(None)
          else Ok(Some(Event(sport, event, it.title, it.link, t)))
  }

  function ItemResults(items: seq<Item>, now: int, default8: int, cachedKeys: set<string>): seq<Result<Option<Event>>>
  {
    seq(|items|, i requires 0 <= i < |items| => ItemResult(items[i], now, default8, cachedKeys))
  }

  /** The events `get_events` returns: none when the feed could not be fetched. */
  function Discover(items: Option<seq<Item>>, now: int, default8: int, cachedKeys: set<string>): Result<seq<Event>>
  {
    if items.None? then Ok([]) else Keep(ItemResults(items.value, now, default8, cachedKeys))
  }

  /**
   * An item raises exactly when it has a title, a link and a date in the
   * window (its own, or `default8` for one matching no format), and a
   * non-empty description without "."; an event it yields has that date, and
   * its sport and label are the description's first two "."-parts, stripped.
   */
  lemma ItemResultMeaning(it: Item, now: int, default8: int, cachedKeys: set<string>)
    ensures ItemResult(it, now, default8, cachedKeys).Err? <==>
      (it.title != "" && it.link != "" &&
       ((it.pub.Date? && Within(it.pub.t, Clean(now), 1800, 1800)) ||
        (it.pub.Unmatched? && Within(default8, Clean(now), 1800, 1800))) &&
       it.desc != "" && !Contains(it.desc, "."))
    ensures ItemResult(it, now, default8, cachedKeys).Err? ==> ItemResult(it, now, default8, cachedKeys).error == IndexError
    ensures var r := ItemResult(it, now, default8, cachedKeys);
      r.Ok? && r.value.Some? ==>
        var ev := r.value.value;
        && it.title != "" && it.link != "" && (it.pub.Date? || it.pub.Unmatched?)
        && (it.pub.Date? ==> ev.ts == it.pub.t) && (it.pub.Unmatched? ==> ev.ts == default8)
        && Within(ev.ts, Clean(now), 1800, 1800)
        && ev == Event(ev.sport, ev.event, it.title, it.link, ev.ts)
        && EventKey(ev.sport, ev.event, it.title) !in cachedKeys
        && (it.desc == "" ==> ev.sport == "" && ev.event == "")
        && Labels(it.desc) == Ok((ev.sport, ev.event))
  {
    LabelsMeaning(it.desc);
  }

  method ProcessItem(it: Item, now: int, default8: int, cachedKeys: set<string>) returns (out: Result<Option<Event>>)
    ensures out == ItemResult(it, now, default8, cachedKeys)
  {
    if it.title == "" || it.pub.NoDate? || it.link == "" {
      return Ok(None);
    }
    if it.pub.Raising? {
      return Ok(None);
    }
    var t := if it.pub.Date? then it.pub.t else default8;
    var start, end := Clean(now) - 1800, Clean(now) + 1800;
    if !(start <= t <= end) {
      return Ok(None);
    }
    var labels := Labels(it.desc);
    if labels.Err? {
      return Err(labels.error);
    }
    var (sport, event) := labels.value;
    if EventKey(sport, event, it.title) in cachedKeys {
      return Ok(None);
    }
    out := Ok(Some(Event(sport, event, it.title, it.link, t)));
  }

  /** The loop of `get_events` over the feed's items. */
  method GetEvents(items: Option<seq<Item>>, now: int, default8: int, cachedKeys: set<string>) returns (r: Result<seq<Event>>)
    ensures r == Discover(items, now, default8, cachedKeys)
  {
    if items.None? {
      return Ok([]);
    }
    var its := items.value;
    var rs := ItemResults(its, now, default8, cachedKeys);
    var events: seq<Event> := [];
    var i := 0;
    while i < |its|
      invariant 0 <= i <= |its|
      invariant Keep(rs[..i]) == Ok(events)
    {
      KeepStep(rs, i);
      var out := ProcessItem(its[i], now, default8, cachedKeys);
      match out {
        case Err(e) =>
          KeepErrPersists(rs, i + 1, |rs|);
          assert rs[..|rs|] == rs;
          return Err(e);
        case Ok(None) =>
        case Ok(Some(ev)) =>
          events := events + [ev];
      }
      i := i + 1;
    }
    assert rs[..i] == rs;
    r := Ok(events);
  }

  /**
   * Every event comes from an item of the feed that passed the filters: it
   * is within half an hour of the minute, and its key is not cached.
   */
  lemma DiscoverSound(items: Option<seq<Item>>, now: int, default8: int, cachedKeys: set<string>)
    ensures var r := Discover(items, now, default8, cachedKeys);
      r.Ok? ==> forall ev :: ev in r.value ==>
        && Within(ev.ts, Clean(now), 1800, 1800) && ev.title != "" && ev.link != ""
        && EventKey(ev.sport, ev.event, ev.title) !in cachedKeys
        && exists it :: it in items.value && it.title == ev.title && it.link == ev.link && (it.pub == Date(ev.ts) || (it.pub == Unmatched && ev.ts == default8))
  {
    if items.Some? {
      var rs := ItemResults(items.value, now, default8, cachedKeys);
      var P := (ev: Event) =>
        && Within(ev.ts, Clean(now), 1800, 1800) && ev.title != "" && ev.link != ""
        && EventKey(ev.sport, ev.event, ev.title) !in cachedKeys
        && exists it :: it in items.value && it.title == ev.title && it.link == ev.link && (it.pub == Date(ev.ts) || (it.pub == Unmatched && ev.ts == default8));
      forall i | 0 <= i < |rs| && rs[i].Ok? && rs[i].value.Some? ensures P(rs[i].value.value) {
        ItemResultMeaning(items.value[i], now, default8, cachedKeys);
        assert items.value[i] in items.value;
      }
      KeepAll(rs, P);
    }
  }

  /** Conversely, a successful discovery keeps every item that yields an event. */
  lemma DiscoverComplete(items: seq<Item>, now: int, default8: int, cachedKeys: set<string>, i: nat)
    requires i < |items| && Discover(Some(items), now, default8, cachedKeys).Ok?
    requires ItemResult(items[i], now, default8, cachedKeys).Ok? && ItemResult(items[i], now, default8, cachedKeys).value.Some?
    ensures ItemResult(items[i], now, default8, cachedKeys).value.value in Discover(Some(items), now, default8, cachedKeys).value
  {
    var rs := ItemResults(items, now, default8, cachedKeys);
    assert rs[i] == ItemResult(items[i], now, default8, cachedKeys);
    KeepComplete(rs, i);
  }

  /** The league lookup: the event label first, then the sport when that gives no tvg id. */
  function Lookup(table: Table, sport: string, event: string): (Option<string>, string)
  {
    var first := Info(table, event);
    if first.0.Some? && first.0.value != "" then first else Info(table, sport)
  }

  /**
   * One event of the `scrape` loop: the browser run's last captured URL
   * (`None` when it did not get that far), stored whatever it is.
   */
  function EventAttempt(ev: Event, run: (bool, seq<string>), table: Table): (a: Attempt)
    ensures a.key == EventKey(ev.sport, ev.event, ev.title)
    ensures a.entry.url == UrlText(Webwork.LastCaptured(run.0, run.1))
    ensures a.entry.base == EntryBase && a.entry.timestamp == ev.ts && a.entry.href.None?
  {
    var url := Webwork.LastCaptured(run.0, run.1);
    var (tvgId, logo) := Lookup(table, ev.sport, ev.event);
    Attempt(EventKey(ev.sport, ev.event, ev.title), Entry(UrlText(url), logo, EntryBase, ev.ts, IdOr(tvgId), None))
  }

  function Attempts(events: seq<Event>, browse: string -> (bool, seq<string>), table: Table)
    : seq<Result<Option<Attempt>>>
  {
    seq(|events|, i requires 0 <= i < |events| => Ok(Some(EventAttempt(events[i], browse(events[i].link), table))))
  }

  /**
   * What one `scrape` leaves behind, as (cache written, live map): the live
   * map starts from the cached entries with a URL; a description without "."
   * raises; otherwise every event's attempt is cached and those with a URL
   * go live.
   */
  function Run(cached: map<string, Entry>, items: Option<seq<Item>>, now: int, default8: int,
               browse: string -> (bool, seq<string>), table: Table): Result<(map<string, Entry>, map<string, Entry>)>
  {
    match Discover(items, now, default8, cached.Keys)
    case Err(e) => Err(e)
    case Ok(events) => Outcome(Tombstone, cached, Seed(Tombstone, cached), Attempts(events, browse, table))
  }

  /** `scrape` */
  method Scrape(cached: map<string, Entry>, items: Option<seq<Item>>, now: int, default8: int,
                browse: string -> (bool, seq<string>), table: Table)
    returns (r: Result<(map<string, Entry>, map<string, Entry>)>)
    ensures r == Run(cached, items, now, default8, browse, table)
  {
    var urls := Seed(Tombstone, cached);
    var events := GetEvents(items, now, default8, cached.Keys);
    if events.Err? {
      return Err(events.error);
    }
    var added;
    r, added := RecordAttempts(Tombstone, cached, urls, Attempts(events.value, browse, table));
  }

  /**
   * After a successful run the cache holds the cached keys and the key of
   * every event, and the live map the cached keys with a URL and the keys of
   * events that found one; every new cache entry has the LiveTV base and a
   * time within half an hour of the minute the run started.
   */
  lemma RunStores(cached: map<string, Entry>, items: Option<seq<Item>>, now: int, default8: int,
                  browse: string -> (bool, seq<string>), table: Table)
    requires Run(cached, items, now, default8, browse, table).Ok?
    ensures var (c, l) := Run(cached, items, now, default8, browse, table).value;
      var events := Discover(items, now, default8, cached.Keys).value;
      var atts := Keep(Attempts(events, browse, table)).value;
      && c.Keys == cached.Keys + (set i | 0 <= i < |atts| :: atts[i].key)
      && l.Keys == Seed(Tombstone, cached).Keys + (set i | 0 <= i < |atts| && IsLive(atts[i].entry) :: atts[i].key)
      && (forall k :: k in l ==> IsLive(l[k]))
      && forall k :: k in c && k !in cached ==>
           c[k].base == EntryBase && Within(c[k].timestamp, Clean(now), 1800, 1800)
  {
    var events := Discover(items, now, default8, cached.Keys).value;
    var atts := Keep(Attempts(events, browse, table)).value;
    var seed := Seed(Tombstone, cached);
    RecordAllTombstoneKeys(cached, seed, atts);
    RecordAllLive(Tombstone, cached, seed, atts);
    AttemptsInWindow(items, now, default8, cached.Keys, browse, table);
    RecordAllIsOverlay(Tombstone, cached, seed, atts);
    OverlayNew(cached, atts, false, (a: Attempt) => a.entry.base == EntryBase && Within(a.entry.timestamp, Clean(now), 1800, 1800));
  }

  /** Every attempt of a run has the LiveTV base and a time within half an hour of the minute. */
  lemma AttemptsInWindow(items: Option<seq<Item>>, now: int, default8: int, cachedKeys: set<string>,
                         browse: string -> (bool, seq<string>), table: Table)
    requires Discover(items, now, default8, cachedKeys).Ok?
    ensures var k := Keep(Attempts(Discover(items, now, default8, cachedKeys).value, browse, table));
      k.Ok? && forall a :: a in k.value ==> a.entry.base == EntryBase && Within(a.entry.timestamp, Clean(now), 1800, 1800)
  {
    var events := Discover(items, now, default8, cachedKeys).value;
    var outs := Attempts(events, browse, table);
    DiscoverSound(items, now, default8, cachedKeys);
    var P := (a: Attempt) => a.entry.base == EntryBase && Within(a.entry.timestamp, Clean(now), 1800, 1800);
    forall i | 0 <= i < |outs| && outs[i].Ok? && outs[i].value.Some? ensures P(outs[i].value.value) {
      var ev := events[i];
      assert ev in events;
      assert Within(ev.ts, Clean(now), 1800, 1800);
      var a := EventAttempt(ev, browse(ev.link), table);
      assert outs[i].value.value == a;
      assert a.entry.base == EntryBase && a.entry.timestamp == ev.ts;
    }
    KeepAll(outs, P);
    KeepMeaning(outs);
  }
}
