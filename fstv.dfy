/**
 * M3U8/scrapers/fstv.py: the FSTV adapter. The first working mirror's home
 * page lists league blocks of match links; each link not seen before (in
 * the cache or earlier on the page) is fetched, and its page's iframe gives
 * the stream URL and its category or og:title the match name.
 */
module Fstv {
  import opened Outcomes
  import opened Text
  import opened Config
  import opened Store
  import Webwork

  const Tag := "FSTV"
  const Mirrors := ["https://fstv.online", "https://fstv.zip", "https://fstv.space", "https://fstv.us"]

  /**
   * One ".league-info-wrapper" of the home page: the text of its
   * "a.league-name" (`None` when it has none) and the "href"s of its
   * parent's match links (`None` when a link has no "href").
   */
  datatype Block = Block(name: Option<string>, games: seq<Option<string>>)

  datatype Event = Event(sport: string, link: string, href: string)

  /** The league text after its first "]", stripped, or all of it. */
  function SportLabel(text: string): string
  {
    if Contains(text, "]") then Strip(SplitOnce(text, "]")[1]) else text
  }

  /** The label is the whole text without "]", else what follows the first "]", stripped. */
  lemma SportLabelMeaning(text: string)
    ensures !Contains(text, "]") ==> SportLabel(text) == text
    ensures Contains(text, "]") ==> exists i: nat :: (At(text, "]", i) && (forall j :: 0 <= j < i ==> !At(text, "]", j)) &&
      SportLabel(text) == Strip(text[i + 1..]))
  {
    if Contains(text, "]") {
      var i := IndexOf(text, "]").value;
      assert SplitOnce(text, "]")[1] == text[i + 1..];
    }
  }

  /** The (sport, href) pairs a block offers, in page order. */
  function Links(sport: string, games: seq<Option<string>>): seq<(string, Option<string>)>
  {
    seq(|games|, j requires 0 <= j < |games| => (sport, games[j]))
  }

  function BlockCands(b: Block): seq<(string, Option<string>)>
  {
    if b.name.None? then [] else Links(SportLabel(Strip(b.name.value)), b.games)
  }

  function Nested(blocks: seq<Block>): seq<seq<(string, Option<string>)>>
  {
    seq(|blocks|, g requires 0 <= g < |blocks| => BlockCands(blocks[g]))
  }

  /**
   * One match link of `get_events`: a link without "href", or with one
   * already seen, is skipped; otherwise it becomes an event and its "href"
   * is seen.
   */
  function Step(acc: (seq<Event>, set<string>), c: (string, Option<string>), base: string,
                urljoin: (string, string) -> string): (seq<Event>, set<string>)
  {
    if c.1.None? || c.1.value == "" || c.1.value in acc.1 then acc
    else (acc.0 + [Event(c.0, urljoin(base, c.1.value), c.1.value)], acc.1 + {c.1.value})
  }

  /** The events and the seen "href"s after the links `cs`, starting from `acc`. */
  function ScanOn(acc: (seq<Event>, set<string>), cs: seq<(string, Option<string>)>, base: string,
                  urljoin: (string, string) -> string): (seq<Event>, set<string>)
    decreases |cs|
  {
    if cs == [] then acc
    else Step(ScanOn(acc, cs[..|cs| - 1], base, urljoin), cs[|cs| - 1], base, urljoin)
  }

  function Scan(cs: seq<(string, Option<string>)>, seen: set<string>, base: string,
                urljoin: (string, string) -> string): (seq<Event>, set<string>)
  {
    ScanOn(([], seen), cs, base, urljoin)
  }

  /** Scanning two runs of links is scanning the first, then the second. */
  lemma {:induction false} ScanOnAppend(acc: (seq<Event>, set<string>), a: seq<(string, Option<string>)>,
                                        b: seq<(string, Option<string>)>, base: string, urljoin: (string, string) -> string)
    ensures ScanOn(acc, a + b, base, urljoin) == ScanOn(ScanOn(acc, a, base, urljoin), b, base, urljoin)
    decreases |b|
  {
    if b == [] {
      assert a + b == a;
    } else {
      assert (a + b)[..|a + b| - 1] == a + b[..|b| - 1];
      ScanOnAppend(acc, a, b[..|b| - 1], base, urljoin);
    }
  }

  /** An event that one of the links `cs` gives. */
  predicate FromLinks(ev: Event, cs: seq<(string, Option<string>)>, base: string, urljoin: (string, string) -> string)
  {
    exists i :: 0 <= i < |cs| && cs[i] == (ev.sport, Some(ev.href)) && ev.href != "" && ev.link == urljoin(base, ev.href)
  }

  /** The non-empty "href"s among the links. */
  function CandHrefs(cs: seq<(string, Option<string>)>): set<string>
  {
    set i | 0 <= i < |cs| && cs[i].1.Some? && cs[i].1.value != "" :: cs[i].1.value
  }

  function EventHrefs(events: seq<Event>): set<string>
  {
    set i | 0 <= i < |events| :: events[i].href
  }

  /**
   * The seen set grows by exactly the events' "href"s, which are all the
   * non-empty "href"s not seen before; no event repeats an "href" or has one
   * seen before; each event is a link joined to the base, with its sport.
   */
  lemma {:induction false} ScanMeaning(cs: seq<(string, Option<string>)>, seen: set<string>, base: string,
                                       urljoin: (string, string) -> string)
    ensures Scan(cs, seen, base, urljoin).1 == seen + EventHrefs(Scan(cs, seen, base, urljoin).0)
    ensures Scan(cs, seen, base, urljoin).1 == seen + CandHrefs(cs)
    ensures var events := Scan(cs, seen, base, urljoin).0;
      && (forall i :: 0 <= i < |events| ==> events[i].href !in seen)
      && (forall i, j :: 0 <= i < j < |events| ==> events[i].href != events[j].href)
      && forall i :: 0 <= i < |events| ==> FromLinks(events[i], cs, base, urljoin)
    decreases |cs|
  {
    if cs != [] {
      var init, c := cs[..|cs| - 1], cs[|cs| - 1];
      ScanMeaning(init, seen, base, urljoin);
      var acc := Scan(init, seen, base, urljoin);
      var events0, seen0 := acc.0, acc.1;
      assert Scan(cs, seen, base, urljoin) == Step(acc, c, base, urljoin);
      CandHrefsSnoc(cs);
      forall i | 0 <= i < |events0| ensures FromLinks(events0[i], cs, base, urljoin) {
        var ev := events0[i];
        var j :| 0 <= j < |init| && init[j] == (ev.sport, Some(ev.href)) && ev.href != "" && ev.link == urljoin(base, ev.href);
        assert cs[j] == init[j];
      }
      if !(c.1.None? || c.1.value == "" || c.1.value in seen0) {
        var ev := Event(c.0, urljoin(base, c.1.value), c.1.value);
        var events := events0 + [ev];
        EventHrefsSnoc(events0, ev);
        forall i | 0 <= i < |events0| ensures events0[i].href != ev.href {
          assert events0[i].href in EventHrefs(events0);
        }
        assert FromLinks(ev, cs, base, urljoin) by {
          assert cs[|cs| - 1] == (ev.sport, Some(ev.href));
        }
        assert forall i :: 0 <= i < |events0| ==> events[i] == events0[i];
      }
    }
  }

  lemma CandHrefsSnoc(cs: seq<(string, Option<string>)>)
    requires cs != []
    ensures var c := cs[|cs| - 1];
      CandHrefs(cs) == CandHrefs(cs[..|cs| - 1]) + (if c.1.Some? && c.1.value != "" then {c.1.value} else {})
  {
    var init, c := cs[..|cs| - 1], cs[|cs| - 1];
    forall h | h in CandHrefs(cs) ensures h in CandHrefs(init) + (if c.1.Some? && c.1.value != "" then {c.1.value} else {}) {
      var i :| 0 <= i < |cs| && cs[i].1.Some? && cs[i].1.value != "" && cs[i].1.value == h;
      if i < |init| {
        assert init[i] == cs[i];
      }
    }
    forall h | h in CandHrefs(init) ensures h in CandHrefs(cs) {
      var i :| 0 <= i < |init| && init[i].1.Some? && init[i].1.value != "" && init[i].1.value == h;
      assert cs[i] == init[i];
    }
  }

  lemma EventHrefsSnoc(events: seq<Event>, ev: Event)
    ensures EventHrefs(events + [ev]) == EventHrefs(events) + {ev.href}
  {
    var all := events + [ev];
    forall h | h in EventHrefs(all) ensures h in EventHrefs(events) + {ev.href} {
      var i :| 0 <= i < |all| && all[i].href == h;
      if i < |events| {
        assert all[i] == events[i];
      }
    }
    forall h | h in EventHrefs(events) ensures h in EventHrefs(all) {
      var i :| 0 <= i < |events| && events[i].href == h;
      assert all[i] == events[i];
    }
    assert all[|events|] == ev;
  }

  /** `get_events`' result and the seen set it leaves, when the home page could be fetched. */
  function Discover(blocks: seq<Block>, seen: set<string>, base: string, urljoin: (string, string) -> string)
    : (seq<Event>, set<string>)
  {
    Scan(Concat(Nested(blocks)), seen, base, urljoin)
  }

  /** The inner loop of `get_events`: one block's match links. */
  method ScanBlock(acc: (seq<Event>, set<string>), sport: string, games: seq<Option<string>>, base: string,
                   urljoin: (string, string) -> string) returns (events: seq<Event>, seen: set<string>)
    ensures (events, seen) == ScanOn(acc, Links(sport, games), base, urljoin)
  {
    var cs := Links(sport, games);
    events, seen := acc.0, acc.1;
    var j := 0;
    while j < |games|
      invariant 0 <= j <= |games|
      invariant (events, seen) == ScanOn(acc, cs[..j], base, urljoin)
    {
      var href := games[j];
      assert cs[..j + 1][..j] == cs[..j] && cs[j] == (sport, href);
      if href.Some? && href.value != "" && href.value !in seen {
        seen := seen + {href.value};
        events := events + [Event(sport, urljoin(base, href.value), href.value)];
      }
      j := j + 1;
    }
    assert cs[..j] == cs;
  }

  /** The nested loop of `get_events`; `seen` is the caller's set, which it grows. */
  method GetEvents(blocks: seq<Block>, seen0: set<string>, base: string, urljoin: (string, string) -> string)
    returns (events: seq<Event>, seen: set<string>)
    ensures (events, seen) == Discover(blocks, seen0, base, urljoin)
  {
    var xss := Nested(blocks);
    events, seen := [], seen0;
    var g := 0;
    while g < |blocks|
      invariant 0 <= g <= |blocks|
      invariant (events, seen) == ScanOn(([], seen0), Concat(xss[..g]), base, urljoin)
    {
      var block := blocks[g];
      assert xss[g] == BlockCands(block);
      ConcatSplitAt(xss, g, 0);
      ScanOnAppend(([], seen0), Concat(xss[..g]), xss[g], base, urljoin);
      if block.name.Some? {
        events, seen := ScanBlock((events, seen), SportLabel(Strip(block.name.value)), block.games, base, urljoin);
      } else {
        assert ScanOn((events, seen), xss[g], base, urljoin) == (events, seen);
      }
      g := g + 1;
    }
    assert xss[..g] == xss;
  }

  /**
   * An event page as `process_event` sees it: not fetched, timed out (the
   * `safe_process` wrapper then returns `None`), or fetched, with the texts
   * of its category links, the content of its "og:title" meta element
   * ("" when the element has none), and its iframe with its "src".
   */
  datatype EventPage = Failed | TimedOut | Page(categoryLinks: seq<string>, ogTitle: Option<string>,
                                                iframe: Option<Option<string>>)

  /**
   * The match name: the last category link's text; when that is missing,
   * empty or "vs" in some case, the og:title content before " start on",
   * stripped, if there is an og:title.
   */
  function MatchName(links: seq<string>, ogTitle: Option<string>): Option<string>
  {
    var name := if links != [] then Some(Strip(links[|links| - 1])) else None;
    if name.None? || name.value == "" || Lower(name.value) == "vs" then
      if ogTitle.Some? then Some(Strip(SplitFirst(ogTitle.value, " start on"))) else name
    else name
  }

  /**
   * `process_event`, with the bare `None` it returns on an iframe without
   * "src" (and `safe_process` on a timeout) as `None`; otherwise (name, url).
   */
  function ProcessEvent(page: EventPage, unquote: string -> string): (r: Option<(string, string)>)
  {
    match page
    case Failed => Some(("", ""))
    case TimedOut => None
    case Page(links, og, iframe) =>
      if iframe.None? then Some(("", ""))
      else if iframe.value.None? || iframe.value.value == "" then None
      else
        var name := MatchName(links, og);
        Some((if name.Some? then name.value else "", SplitLast(unquote(iframe.value.value), "link=")))
  }

  /**
   * A page yields nothing to unpack exactly when it timed out or its iframe
   * has no "src"; it yields no URL when it failed or has no iframe; otherwise
   * the URL is the decoded "src" after its last "link=" (all of it when there
   * is none), which holds no "link=".
   */
  lemma ProcessEventMeaning(page: EventPage, unquote: string -> string)
    ensures ProcessEvent(page, unquote).None? <==>
      page.TimedOut? || (page.Page? && page.iframe.Some? && (page.iframe.value.None? || page.iframe.value.value == ""))
    ensures page.Failed? || (page.Page? && page.iframe.None?) ==> ProcessEvent(page, unquote) == Some(("", ""))
    ensures page.Page? && page.iframe.Some? && page.iframe.value.Some? && page.iframe.value.value != "" ==>
      var src := unquote(page.iframe.value.value);
      var url := ProcessEvent(page, unquote).value.1;
      && EndsWith(src, url) && !Contains(url, "link=")
      && (url == src || EndsWith(src, "link=" + url))
      && (!Contains(src, "link=") ==> url == src)
  {
    if page.Page? && page.iframe.Some? && page.iframe.value.Some? && page.iframe.value.value != "" {
      SplitLastMeaning(unquote(page.iframe.value.value), "link=");
    }
  }

  /** The key `"[sport] match (FSTV)"`, or `"[sport] (FSTV)"` without a match name. */
  function FstvKey(sport: string, name: string): string
  {
    if name != "" then Key(sport, name, Tag) else "[" + sport + "] (" + Tag + ")"
  }

  /** Both forms of the key end in the FSTV tag. */
  lemma FstvKeyTagged(sport: string, name: string)
    ensures HasTag(FstvKey(sport, name), Tag)
  {
    KeyTag(sport, name, Tag);
  }

  /** The key tells the sport and the match name apart: two events share a key only if they agree on both. */
  lemma FstvKeyInjective(sport: string, name: string, sport': string, name': string)
    requires ']' !in sport && ']' !in sport'
    requires FstvKey(sport, name) == FstvKey(sport', name')
    ensures sport == sport' && name == name'
  {
    var k := FstvKey(sport, name);
    var head, head' := "[" + sport + "]", "[" + sport' + "]";
    FstvKeySplit(sport, name);
    FstvKeySplit(sport', name');
    assert k[..|head|] == head && k[|head|..] == FstvTail(name) by {
      assert k == head + FstvTail(name);
    }
    assert k[..|head'|] == head' && k[|head'|..] == FstvTail(name') by {
      assert k == head' + FstvTail(name');
    }
    KeySport(k, sport, sport');
    assert FstvTail(name) == k[|sport| + 2..] == FstvTail(name');
    FstvTailName(name);
    FstvTailName(name');
  }

  /** What follows the bracketed sport in a key. */
  function FstvTail(name: string): string
  {
    if name != "" then " " + name + " (FSTV)" else " (FSTV)"
  }

  lemma FstvKeySplit(sport: string, name: string)
    ensures FstvKey(sport, name) == "[" + sport + "]" + FstvTail(name)
  {
    if name != "" {
      assert Key(sport, name, Tag) == "[" + sport + "]" + (" " + name + " (FSTV)");
    } else {
      assert FstvKey(sport, name) == "[" + sport + "]" + " (FSTV)";
    }
  }

  /** The name can be read back from the tail. */
  lemma FstvTailName(name: string)
    ensures name == if |FstvTail(name)| == 7 then "" else FstvTail(name)[1..|FstvTail(name)| - 7]
  {
  }

  /**
   * One event of the `scrape` loop: unpacking a bare `None` raises
   * `TypeError`; a pair without URL is skipped; otherwise the entry carries
   * the mirror as its base and the event's "href".
   */
  function EventResult(ev: Event, page: EventPage, unquote: string -> string, table: Table, base: string, now: int)
    : Result<Option<Attempt>>
  {
    match ProcessEvent(page, unquote)
    case None => Err(TypeError)
    case Some((name, url)) =>
      Found(FstvKey(ev.sport, name), Some(url), Ok(Info(table, ev.sport)), None, base, now, Some(ev.href))
  }

  function Attempts(events: seq<Event>, fetchEvent: string -> EventPage, unquote: string -> string, table: Table,
                    base: string, now: int): seq<Result<Option<Attempt>>>
  {
    seq(|events|, i requires 0 <= i < |events| =>
      EventResult(events[i], fetchEvent(events[i].link), unquote, table, base, now))
  }

  /** Every cached entry carries an "href". */
  predicate HrefsKnown(cached: map<string, Entry>)
  {
    forall k :: k in cached ==> cached[k].href.Some?
  }

  /** `cached_hrefs` */
  function CachedHrefs(cached: map<string, Entry>): set<string>
  {
    set k | k in cached && cached[k].href.Some? :: cached[k].href.value
  }

  /**
   * What one `scrape` leaves behind, as (cache written, live map): a cached
   * entry without "href" raises `KeyError`; without a working mirror the
   * cache is written back unchanged; otherwise the new links of the home page
   * (none if it could not be fetched) are processed and recorded.
   */
  function Run(cached: map<string, Entry>, probes: seq<Webwork.Probe>, home: Option<seq<Block>>,
               fetchEvent: string -> EventPage, unquote: string -> string, urljoin: (string, string) -> string,
               table: Table, now: int): Result<(map<string, Entry>, map<string, Entry>)>
    requires |probes| == |Mirrors|
  {
    if !HrefsKnown(cached) then Err(KeyError)
    else
      match Webwork.GetBase(Mirrors, probes)
      case None => Ok((cached, cached))
      case Some(base) =>
        var events := if home.None? then [] else Discover(home.value, CachedHrefs(cached), base, urljoin).0;
        Outcome(DropOnFailure, cached, cached, Attempts(events, fetchEvent, unquote, table, base, now))
  }

  /** `scrape` */
  method Scrape(cached: map<string, Entry>, probes: seq<Webwork.Probe>, home: Option<seq<Block>>,
                fetchEvent: string -> EventPage, unquote: string -> string, urljoin: (string, string) -> string,
                table: Table, now: int) returns (r: Result<(map<string, Entry>, map<string, Entry>)>)
    requires |probes| == |Mirrors|
    ensures r == Run(cached, probes, home, fetchEvent, unquote, urljoin, table, now)
  {
    if exists k :: k in cached && cached[k].href.None? {
      return Err(KeyError);
    }
    var seen := CachedHrefs(cached);
    var base := Webwork.GetBase(Mirrors, probes);
    if base.None? {
      return Ok((cached, cached));
    }
    var events: seq<Event> := [];
    if home.Some? {
      var seen';
      events, seen' := GetEvents(home.value, seen, base.value, urljoin);
    }
    var added;
    r, added := RecordAttempts(DropOnFailure, cached, cached, Attempts(events, fetchEvent, unquote, table, base.value, now));
  }

  /** What `scrape` stores for one event: an entry with a URL, the mirror, the time and the event's "href". */
  lemma EventResultSound(ev: Event, page: EventPage, unquote: string -> string, table: Table, base: string, now: int)
    ensures var r := EventResult(ev, page, unquote, table, base, now);
      r.Ok? && r.value.Some? ==>
        var e := r.value.value.entry;
        IsLive(e) && e.base == base && e.timestamp == now && e.href == Some(ev.href)
  {
  }

  /** A new entry of a run: a URL, the mirror, the time and an "href" not cached before. */
  predicate NewEntry(e: Entry, base: string, now: int, seen: set<string>)
  {
    IsLive(e) && e.base == base && e.timestamp == now && e.href.Some? && e.href.value !in seen
  }

  /**
   * After a successful run with a working mirror the cache and the live map
   * are equal; they hold the cached entries and the keys that found a URL,
   * and every new entry has a URL, the mirror as its base, the run's time,
   * and an "href" that no cached entry had.
   */
  lemma RunStores(cached: map<string, Entry>, probes: seq<Webwork.Probe>, home: Option<seq<Block>>,
                  fetchEvent: string -> EventPage, unquote: string -> string, urljoin: (string, string) -> string,
                  table: Table, now: int)
    requires |probes| == |Mirrors|
    requires Run(cached, probes, home, fetchEvent, unquote, urljoin, table, now).Ok?
    requires Webwork.GetBase(Mirrors, probes).Some?
    ensures var (c, l) := Run(cached, probes, home, fetchEvent, unquote, urljoin, table, now).value;
      var base := Webwork.GetBase(Mirrors, probes).value;
      var events := if home.None? then [] else Discover(home.value, CachedHrefs(cached), base, urljoin).0;
      var atts := Keep(Attempts(events, fetchEvent, unquote, table, base, now)).value;
      && c == l && c.Keys == cached.Keys + LiveKeys(atts)
      && forall k :: k in c && k !in cached ==> NewEntry(c[k], base, now, CachedHrefs(cached))
  {
    var base := Webwork.GetBase(Mirrors, probes).value;
    var seen := CachedHrefs(cached);
    var events := if home.None? then [] else Discover(home.value, seen, base, urljoin).0;
    var outs := Attempts(events, fetchEvent, unquote, table, base, now);
    var atts := Keep(outs).value;
    assert forall i :: 0 <= i < |events| ==> events[i].href !in seen by {
      if home.Some? {
        ScanMeaning(Concat(Nested(home.value)), seen, base, urljoin);
      }
    }
    DropGrowth(cached, atts);
    AttemptsNew(events, fetchEvent, unquote, table, base, now, seen);
    RecordAllIsOverlay(DropOnFailure, cached, cached, atts);
    OverlayNew(cached, atts, true, (a: Attempt) => NewEntry(a.entry, base, now, seen));
  }

  /** Every attempt kept from events whose "href" was not cached is a new entry. */
  lemma AttemptsNew(events: seq<Event>, fetchEvent: string -> EventPage, unquote: string -> string, table: Table,
                    base: string, now: int, seen: set<string>)
    requires forall i :: 0 <= i < |events| ==> events[i].href !in seen
    ensures var outs := Attempts(events, fetchEvent, unquote, table, base, now);
      Keep(outs).Ok? ==> forall a :: a in Keep(outs).value ==> NewEntry(a.entry, base, now, seen)
  {
    var outs := Attempts(events, fetchEvent, unquote, table, base, now);
    var P := (a: Attempt) => NewEntry(a.entry, base, now, seen);
    forall i | 0 <= i < |outs| && outs[i].Ok? && outs[i].value.Some? ensures P(outs[i].value.value) {
      EventResultSound(events[i], fetchEvent(events[i].link), unquote, table, base, now);
    }
    KeepAll(outs, P);
  }
}
