/**
 * M3U8/scrapers/streameast.py: the StreamEast adapter. Its front page lists
 * sport sections of match cards; the uncached cards that are live or start
 * within half an hour of now are resolved, and only those that produce a URL
 * are stored.
 */
module Streameast {
  import opened Outcomes
  import opened Text
  import opened Config
  import opened Store
  import Webwork

  const Tag := "SEAST"

  /** The `base` written into every stored entry. */
  const EmbedBase := "https://embedsports.top/"

  const Mirrors := [
    "https://streameast.ch", "https://streameast.sg", "https://streameast.tw", "https://streameast.ph",
    "https://streameast.ec", "https://streameast.fi", "https://streameast.ms", "https://streameast.ps",
    "https://streameast.cf", "https://streameast.sk", "https://thestreameast.co", "https://thestreameast.fun",
    "https://thestreameast.ru", "https://thestreameast.su"]

  /**
   * One `a.uefa-card`: its href ("" when missing), the texts of its team spans,
   * the text of its time element if it has one, and its "data-time" attribute.
   */
  datatype Card = Card(href: string, teams: seq<string>, timeText: Option<string>, dataTime: Option<string>)

  /** One `div.se-sport-section`: its "data-sport-name" attribute ("" when missing) and its cards. */
  datatype Section = Section(sportName: string, cards: seq<Card>)

  datatype Event = Event(sport: string, name: string, link: string, timestamp: int)

  /** The display name: "A vs B" for two team spans, the span for one, nothing otherwise. */
  function NameOf(teams: seq<string>): Option<string>
  {
    if |teams| == 2 then Some(teams[0] + " vs " + teams[1])
    else if |teams| == 1 then Some(teams[0])
    else None
  }

  /**
   * `int(a.attributes.get("data-time", Time.default_8()))`: the attribute read
   * as an integer (raising `ValueError` if it is not one), 08:00 today without it.
   */
  function StartOf(dataTime: Option<string>, default8: int): Result<int>
  {
    if dataTime.None? then Ok(default8) else ParseInt(dataTime.value)
  }

  /**
   * One card of a section with a sport name: skipped without an href, without
   * one or two team spans, or without a time element; its time must parse;
   * skipped when its key is cached; kept when its time text is exactly "LIVE"
   * or it starts inside the inclusive window of 30 minutes around the
   * minute-floored now.
   */
  function Classify(sport: string, card: Card, base: string, cachedKeys: set<string>, now: int, default8: int,
                    urljoin: (string, string) -> string): Result<Option<Event>>
  {
    if card.href == "" then Ok(None)
    else
      match NameOf(card.teams)
      case None => Ok(None)
      case Some(name) =>
        if card.timeText.None? then Ok(None)
        else
          match StartOf(card.dataTime, default8)
          case Err(e) => Err(e)
          case Ok(ts) =>
            if Key(sport, name, Tag) in cachedKeys then Ok(None)
            else if card.timeText.value == "LIVE" || Within(ts, Clean(now), 1800, 1800) then
              Ok(Some(Event(sport, name, urljoin(base, card.href), ts)))
            else Ok(None)
  }

  /** The per-card outcomes of one section: none when its sport name is blank. */
  function SectionResults(sec: Section, base: string, cachedKeys: set<string>, now: int, default8: int,
                          urljoin: (string, string) -> string): seq<Result<Option<Event>>>
  {
    var sport := Strip(sec.sportName);
    if sport == "" then []
    else seq(|sec.cards|, i requires 0 <= i < |sec.cards| => Classify(sport, sec.cards[i], base, cachedKeys, now, default8, urljoin))
  }

  function Nested(sections: seq<Section>, base: string, cachedKeys: set<string>, now: int, default8: int,
                  urljoin: (string, string) -> string): seq<seq<Result<Option<Event>>>>
  {
    seq(|sections|, j requires 0 <= j < |sections| => SectionResults(sections[j], base, cachedKeys, now, default8, urljoin))
  }

  /** What `get_events` returns for a fetched page, or raises. */
  function Discover(sections: seq<Section>, base: string, cachedKeys: set<string>, now: int, default8: int,
                    urljoin: (string, string) -> string): Result<seq<Event>>
  {
    Keep(Concat(Nested(sections, base, cachedKeys, now, default8, urljoin)))
  }

  /** The body of the inner loop of `get_events`, for one card. */
  method ProcessCard(sport: string, card: Card, base: string, cachedKeys: set<string>, now: int, default8: int,
                     urljoin: (string, string) -> string) returns (out: Result<Option<Event>>)
    ensures out == Classify(sport, card, base, cachedKeys, now, default8, urljoin)
  {
    if card.href == "" {
      return Ok(None);
    }
    var link := urljoin(base, card.href);
    var name := NameOf(card.teams);
    if name.None? || card.timeText.None? {
      return Ok(None);
    }
    var ts := StartOf(card.dataTime, default8);
    if ts.Err? {
      return Err(ts.error);
    }
    if Key(sport, name.value, Tag) in cachedKeys {
      return Ok(None);
    }
    if card.timeText.value == "LIVE" || Within(ts.value, Clean(now), 1800, 1800) {
      return Ok(Some(Event(sport, name.value, link, ts.value)));
    }
    return Ok(None);
  }

  /**
   * What one kept card stands for: a card with an href, one or two team spans
   * naming the event, a time element, and a parsable start, whose key is new
   * and which is live or starts inside the window.
   */
  lemma ClassifySound(sport: string, card: Card, base: string, cachedKeys: set<string>, now: int, default8: int,
                      urljoin: (string, string) -> string)
    ensures var r := Classify(sport, card, base, cachedKeys, now, default8, urljoin);
      r.Ok? && r.value.Some? ==>
        var ev := r.value.value;
        && ev.sport == sport && Key(ev.sport, ev.name, Tag) !in cachedKeys
        && card.href != "" && NameOf(card.teams) == Some(ev.name) && card.timeText.Some?
        && StartOf(card.dataTime, default8) == Ok(ev.timestamp) && ev.link == urljoin(base, card.href)
        && (card.timeText == Some("LIVE") || Within(ev.timestamp, Clean(now), 1800, 1800))
  {
  }

  /** The inner loop of `get_events`: one section's cards. */
  method ScanSection(sec: Section, base: string, cachedKeys: set<string>, now: int, default8: int,
                     urljoin: (string, string) -> string) returns (r: Result<seq<Event>>)
    ensures r == Keep(SectionResults(sec, base, cachedKeys, now, default8, urljoin))
  {
    var rs := SectionResults(sec, base, cachedKeys, now, default8, urljoin);
    var sport := Strip(sec.sportName);
    if sport == "" {
      return Ok([]);
    }
    var cards := sec.cards;
    var found: seq<Event> := [];
    var c := 0;
    while c < |cards|
      invariant 0 <= c <= |cards|
      invariant Keep(rs[..c]) == Ok(found)
    {
      KeepStep(rs, c);
      var out := ProcessCard(sport, cards[c], base, cachedKeys, now, default8, urljoin);
      match out {
        case Err(e) =>
          KeepErrPersists(rs, c + 1, |rs|);
          assert rs[..|rs|] == rs;
          return Err(e);
        case Ok(None) =>
        case Ok(Some(ev)) =>
          found := found + [ev];
      }
      c := c + 1;
    }
    assert rs[..c] == rs;
    r := Ok(found);
  }

  /** The nested loop of `get_events`. */
  method GetEvents(sections: seq<Section>, base: string, cachedKeys: set<string>, now: int, default8: int,
                   urljoin: (string, string) -> string) returns (r: Result<seq<Event>>)
    ensures r == Discover(sections, base, cachedKeys, now, default8, urljoin)
  {
    var xss := Nested(sections, base, cachedKeys, now, default8, urljoin);
    var events: seq<Event> := [];
    var s := 0;
    while s < |sections|
      invariant 0 <= s <= |sections|
      invariant Keep(Concat(xss[..s])) == Ok(events)
    {
      var found := ScanSection(sections[s], base, cachedKeys, now, default8, urljoin);
      assert xss[s] == SectionResults(sections[s], base, cachedKeys, now, default8, urljoin);
      KeepOuterStep(xss, s);
      if found.Err? {
        return Err(found.error);
      }
      events := events + found.value;
      s := s + 1;
    }
    assert xss[..|xss|] == xss;
    r := Ok(events);
  }

  /**
   * Every event comes from a section with a non-blank sport name, its key is
   * not cached, and it starts inside the window unless some card of that
   * sport with that link showed "LIVE".
   */
  lemma DiscoverSound(sections: seq<Section>, base: string, cachedKeys: set<string>, now: int, default8: int,
                      urljoin: (string, string) -> string)
    ensures var r := Discover(sections, base, cachedKeys, now, default8, urljoin);
      r.Ok? ==> forall ev :: ev in r.value ==>
        && ev.sport != "" && Key(ev.sport, ev.name, Tag) !in cachedKeys
        && (Within(ev.timestamp, Clean(now), 1800, 1800) ||
            exists sec, card :: (sec in sections && card in sec.cards && Strip(sec.sportName) == ev.sport &&
              card.timeText == Some("LIVE") && urljoin(base, card.href) == ev.link))
  {
    var xss := Nested(sections, base, cachedKeys, now, default8, urljoin);
    var rs := Concat(xss);
    var P := (ev: Event) =>
      && ev.sport != "" && Key(ev.sport, ev.name, Tag) !in cachedKeys
      && (Within(ev.timestamp, Clean(now), 1800, 1800) ||
          exists sec, card :: (sec in sections && card in sec.cards && Strip(sec.sportName) == ev.sport &&
            card.timeText == Some("LIVE") && urljoin(base, card.href) == ev.link));
    forall i | 0 <= i < |rs| && rs[i].Ok? && rs[i].value.Some? ensures P(rs[i].value.value) {
      ConcatMember(xss, rs[i]);
      var s :| 0 <= s < |xss| && rs[i] in xss[s];
      var c :| 0 <= c < |xss[s]| && xss[s][c] == rs[i];
      var sec := sections[s];
      var card := sec.cards[c];
      assert rs[i] == Classify(Strip(sec.sportName), card, base, cachedKeys, now, default8, urljoin);
      ClassifySound(Strip(sec.sportName), card, base, cachedKeys, now, default8, urljoin);
      assert sec in sections && card in sec.cards;
    }
    KeepAll(rs, P);
  }

  /**
   * Every card of a section with a sport name that has an href, one or two
   * team spans, a time element and a parsable start, whose key is new, and
   * that shows "LIVE" or starts inside the window, is returned.
   */
  lemma DiscoverComplete(sections: seq<Section>, base: string, cachedKeys: set<string>, now: int, default8: int,
                         urljoin: (string, string) -> string, s: nat, c: nat)
    requires s < |sections| && c < |sections[s].cards|
    requires var sport, card := Strip(sections[s].sportName), sections[s].cards[c];
      && sport != "" && card.href != "" && NameOf(card.teams).Some? && card.timeText.Some?
      && StartOf(card.dataTime, default8).Ok? && Key(sport, NameOf(card.teams).value, Tag) !in cachedKeys
      && (card.timeText == Some("LIVE") || Within(StartOf(card.dataTime, default8).value, Clean(now), 1800, 1800))
    requires Discover(sections, base, cachedKeys, now, default8, urljoin).Ok?
    ensures var sport, card := Strip(sections[s].sportName), sections[s].cards[c];
      Event(sport, NameOf(card.teams).value, urljoin(base, card.href), StartOf(card.dataTime, default8).value)
        in Discover(sections, base, cachedKeys, now, default8, urljoin).value
  {
    var sport, card := Strip(sections[s].sportName), sections[s].cards[c];
    var xss := Nested(sections, base, cachedKeys, now, default8, urljoin);
    assert xss[s] == SectionResults(sections[s], base, cachedKeys, now, default8, urljoin);
    assert xss[s][c] == Classify(sport, card, base, cachedKeys, now, default8, urljoin);
    assert xss[s][c] == Ok(Some(Event(sport, NameOf(card.teams).value, urljoin(base, card.href),
                                      StartOf(card.dataTime, default8).value)));
    KeepNestedComplete(xss, s, c);
  }

  function Attempts(events: seq<Event>, resolve: string -> Option<string>, table: Table): seq<Result<Option<Attempt>>>
  {
    seq(|events|, i requires 0 <= i < |events| =>
      var ev := events[i];
      Found(Key(ev.sport, ev.name, Tag), resolve(ev.link), GetTvgInfo(table, ev.sport, ev.name), None,
            EmbedBase, ev.timestamp, None))
  }

  /**
   * What one `scrape` leaves behind, as (cache written, live map): the loaded
   * cache unchanged when no mirror works or its page cannot be fetched;
   * otherwise every resolved event recorded.
   */
  function Run(cached: map<string, Entry>, probes: seq<Webwork.Probe>, page: Option<seq<Section>>, now: int,
               default8: int, resolve: string -> Option<string>, table: Table, urljoin: (string, string) -> string)
    : Result<(map<string, Entry>, map<string, Entry>)>
    requires |probes| == |Mirrors|
  {
    match Webwork.GetBase(Mirrors, probes)
    case None => Ok((cached, cached))
    case Some(base) =>
      match Discover(if page.Some? then page.value else [], base, cached.Keys, now, default8, urljoin)
      case Err(e) => Err(e)
      case Ok(events) => Outcome(DropOnFailure, cached, cached, Attempts(events, resolve, table))
  }

  /** `scrape`. */
  method Scrape(cached: map<string, Entry>, probes: seq<Webwork.Probe>, page: Option<seq<Section>>, now: int,
                default8: int, resolve: string -> Option<string>, table: Table, urljoin: (string, string) -> string)
    returns (r: Result<(map<string, Entry>, map<string, Entry>)>)
    requires |probes| == |Mirrors|
    ensures r == Run(cached, probes, page, now, default8, resolve, table, urljoin)
  {
    var base := Webwork.GetBase(Mirrors, probes);
    if base.None? {
      return Ok((cached, cached));
    }
    var sections := if page.Some? then page.value else [];
    var events := GetEvents(sections, base.value, cached.Keys, now, default8, urljoin);
    if events.Err? {
      return Err(events.error);
    }
    var added;
    r, added := RecordAttempts(DropOnFailure, cached, cached, Attempts(events.value, resolve, table));
  }

  /**
   * Every entry a run adds has a URL and the fixed embed base, and the cache
   * written equals the live map.
   */
  lemma RunStores(cached: map<string, Entry>, probes: seq<Webwork.Probe>, page: Option<seq<Section>>, now: int,
                  default8: int, resolve: string -> Option<string>, table: Table, urljoin: (string, string) -> string)
    requires |probes| == |Mirrors|
    requires Run(cached, probes, page, now, default8, resolve, table, urljoin).Ok?
    ensures var (c, l) := Run(cached, probes, page, now, default8, resolve, table, urljoin).value;
      c == l && cached.Keys <= c.Keys && forall k :: k in c && k !in cached ==> IsLive(c[k]) && c[k].base == EmbedBase
  {
    var base := Webwork.GetBase(Mirrors, probes);
    if base.Some? {
      var events := Discover(if page.Some? then page.value else [], base.value, cached.Keys, now, default8, urljoin).value;
      var outs := Attempts(events, resolve, table);
      var atts := Keep(outs).value;
      DropGrowth(cached, atts);
      forall i | 0 <= i < |outs| && outs[i].Ok? && outs[i].value.Some?
        ensures IsLive(outs[i].value.value.entry) && outs[i].value.value.entry.base == EmbedBase
      {
        var ev := events[i];
        assert outs[i] == Found(Key(ev.sport, ev.name, Tag), resolve(ev.link), GetTvgInfo(table, ev.sport, ev.name),
          None, EmbedBase, ev.timestamp, None);
      }
      KeepAll(outs, (a: Attempt) => IsLive(a.entry) && a.entry.base == EmbedBase);
      RecordAllIsOverlay(DropOnFailure, cached, cached, atts);
      forall k | k in Overlay(cached, atts, true) && k !in cached
        ensures IsLive(Overlay(cached, atts, true)[k]) && Overlay(cached, atts, true)[k].base == EmbedBase
      {
        LatestIn(atts, k, true);
        var i :| 0 <= i < |atts| && atts[i].key == k && atts[i].entry == Latest(atts, k, true).value;
        assert atts[i] in atts;
      }
    }
  }
}
