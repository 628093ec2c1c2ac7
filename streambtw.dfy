/**
 * M3U8/scrapers/streambtw.py: the StreamBTW adapter. A non-empty cache is
 * used as it is; otherwise the home page's cards are read, each card's page
 * is fetched, and the first `var <name> = http(s)://...m3u8` assignment in it
 * gives the stream URL.
 */
module Streambtw {
  import opened Outcomes
  import opened Text
  import opened Config
  import opened Store

  const Tag := "SBTW"
  const BaseUrl := "https://streambtw.com"

  predicate Quote(c: char)
  {
    c == '\'' || c == '"'
  }

  /** The characters `[^"'\s>]` refuses. */
  predicate Stop(c: char)
  {
    Quote(c) || IsSpace(c) || c == '>'
  }

  /** The end of the run of characters `[^"'\s>]` accepts, from `k`. */
  function RunEnd(s: string, k: nat): (r: nat)
    requires k <= |s|
    ensures k <= r <= |s|
    ensures forall i :: k <= i < r ==> !Stop(s[i])
    ensures r < |s| ==> Stop(s[r])
    decreases |s| - k
  {
    if k < |s| && !Stop(s[k]) then RunEnd(s, k + 1) else k
  }

  /** The end of the run of `\w` characters from `k`. */
  function IdentEnd(s: string, k: nat): (r: nat)
    requires k <= |s|
    ensures k <= r <= |s|
    ensures forall i :: k <= i < r ==> IsWordChar(s[i])
    ensures r < |s| ==> !IsWordChar(s[r])
    decreases |s| - k
  {
    if k < |s| && IsWordChar(s[k]) then IdentEnd(s, k + 1) else k
  }

  /** The last position in `lo..m` at which ".m3u8" (any case) occurs. */
  function LastDot(s: string, lo: nat, m: nat): (r: Option<nat>)
    ensures r.Some? ==> lo <= r.value <= m && At(Lower(s), ".m3u8", r.value)
    ensures r.Some? ==> forall j :: r.value < j <= m ==> !At(Lower(s), ".m3u8", j)
    ensures r.None? ==> forall j :: lo <= j <= m ==> !At(Lower(s), ".m3u8", j)
    decreases m
  {
    if m < lo then None
    else if At(Lower(s), ".m3u8", m) then Some(m)
    else if m == 0 then None
    else LastDot(s, lo, m - 1)
  }

  /**
   * `https?://` at `q`, in any case: the position after "://". Every
   * character of the head is one `[^"'\s>]` accepts.
   */
  function Scheme(s: string, q: nat): (r: Option<nat>)
    ensures r.Some? ==> q + 7 <= r.value <= |s| && At(Lower(s), "http", q)
    ensures r.Some? ==> forall i :: q <= i < r.value ==> !Stop(s[i])
  {
    var l := Lower(s);
    if !At(l, "http", q) then None
    else
      var h := if q + 4 < |s| && l[q + 4] == 's' then q + 5 else q + 4;
      if At(s, "://", h) then
        assert forall i :: q <= i < q + 4 ==> l[i] == l[q..q + 4][i - q] && l[i] == LowerChar(s[i]);
        assert forall i :: h <= i < h + 3 ==> s[i] == s[h..h + 3][i - h];
        Some(h + 3)
      else None
  }

  /**
   * Where the URL group starts when `var\s+\w+\s*=\s*["']?` matches at `p`
   * (letters in any case) and a scheme follows, with the position after "://".
   */
  function UrlStart(s: string, p: nat): (r: Option<(nat, nat)>)
    ensures r.Some? ==> Scheme(s, r.value.0) == Some(r.value.1)
  {
    if !At(Lower(s), "var", p) then None
    else
      var w1 := SpaceRunEnd(s, p + 3);
      var w2 := IdentEnd(s, w1);
      var w3 := SpaceRunEnd(s, w2);
      if w1 == p + 3 || w2 == w1 || !(w3 < |s| && s[w3] == '=') then None
      else
        var w4 := SpaceRunEnd(s, w3 + 1);
        var q := if w4 < |s| && Quote(s[w4]) then w4 + 1 else w4;
        match Scheme(s, q)
        case None => None
        case Some(c) => Some((q, c))
  }

  /**
   * Where the URL group that starts before `c` ends. `[^"'\s>]+` is greedy,
   * so ".m3u8" is the last one in the run of URL characters from `c`; an
   * optional "?" query follows.
   */
  function UrlEnd(s: string, c: nat): (r: Option<nat>)
    requires c <= |s|
    ensures r.Some? ==> c + 6 <= r.value <= |s| && forall i :: c <= i < r.value ==> !Stop(s[i])
    ensures r.Some? ==> exists m :: c < m && m + 5 <= r.value && At(Lower(s), ".m3u8", m)
  {
    var run := RunEnd(s, c);
    if run < c + 6 then None
    else
      match LastDot(s, c + 1, run - 5)
      case None => None
      case Some(m) =>
        var t := m + 5;
        if t < |s| && s[t] == '?' then
          var e := RunEnd(s, t + 1);
          assert forall i :: c <= i < e ==> (i < t ==> i < run) && (i == t ==> s[i] == '?');
          Some(e)
        else Some(t)
  }

  /** The group the pattern captures when it matches at `p`. */
  function MatchAt(s: string, p: nat): Option<string>
  {
    match UrlStart(s, p)
    case None => None
    case Some((q, c)) =>
      match UrlEnd(s, c)
      case None => None
      case Some(e) => Some(s[q..e])
  }

  /** `valid_m3u8.search(text)`: the group of the leftmost match at or after `p`. */
  function SearchFrom(s: string, p: nat): Option<string>
  {
    FirstFrom((q: nat) => MatchAt(s, q), p, |s|)
  }

  /** `process_event`: nothing when the page could not be fetched, otherwise the match, if any. */
  function ExtractUrl(page: Option<string>): Option<string>
  {
    if page.None? then None else SearchFrom(page.value, 0)
  }

  /**
   * A captured URL is a text of the page starting at `q` with "http" in some
   * case, free of quotes, whitespace and ">", and containing ".m3u8" in some
   * case after its "http://" head.
   */
  predicate Captures(s: string, q: nat, u: string)
  {
    && q + |u| <= |s| && s[q..q + |u|] == u
    && At(Lower(s), "http", q)
    && (forall i :: 0 <= i < |u| ==> !Stop(u[i]))
    && exists m :: q + 7 < m && m + 5 <= q + |u| && At(Lower(s), ".m3u8", m)
  }

  /** What `MatchAt` captures, given where the head and the group end. */
  lemma GroupCaptures(s: string, q: nat, c: nat, e: nat)
    requires Scheme(s, q) == Some(c) && UrlEnd(s, c) == Some(e)
    ensures Captures(s, q, s[q..e])
  {
    var u := s[q..e];
    assert |u| == e - q && q + |u| == e;
    forall i | 0 <= i < |u| ensures !Stop(u[i]) {
      assert u[i] == s[q + i];
    }
  }

  lemma MatchAtSound(s: string, p: nat)
    requires MatchAt(s, p).Some?
    ensures UrlStart(s, p).Some? && Captures(s, UrlStart(s, p).value.0, MatchAt(s, p).value)
  {
    var st := UrlStart(s, p).value;
    GroupCaptures(s, st.0, st.1, UrlEnd(s, st.1).value);
  }

  /**
   * The search finds something exactly when the pattern matches at some
   * position, and then it returns the match at the leftmost such position.
   */
  lemma SearchFromMeaning(s: string, p: nat)
    ensures SearchFrom(s, p).Some? <==> exists q :: p <= q <= |s| && MatchAt(s, q).Some?
    ensures SearchFrom(s, p).Some? ==> exists q :: (p <= q <= |s| && SearchFrom(s, p) == MatchAt(s, q) &&
      forall q' :: p <= q' < q ==> MatchAt(s, q').None?)
  {
    var f := (q: nat) => MatchAt(s, q);
    FirstFromMeaning(f, p, |s|);
    assert forall q :: f(q) == MatchAt(s, q);
  }

  /** Whatever `process_event` returns is a captured stream URL of the page. */
  lemma ExtractUrlSound(page: Option<string>)
    requires ExtractUrl(page).Some?
    ensures page.Some? && exists q :: Captures(page.value, q, ExtractUrl(page).value)
  {
    var s := page.value;
    SearchFromMeaning(s, 0);
    var p :| 0 <= p <= |s| && SearchFrom(s, 0) == MatchAt(s, p) &&
      forall q' :: 0 <= q' < p ==> MatchAt(s, q').None?;
    MatchAtSound(s, p);
  }

  /**
   * One "div.card" of the home page: the "href" of its "a.btn.btn-primary"
   * (`None` outside when there is no such button, `None` inside when it has no
   * "href"), and the texts of its "h5.card-title" and "p.card-text".
   */
  datatype Card = Card(button: Option<Option<string>>, title: Option<string>, text: Option<string>)

  datatype Event = Event(sport: string, name: string, link: string)

  /**
   * One card of `get_events`: a card without a button raises
   * `AttributeError`; one whose button has no "href" is skipped; a missing
   * title or text raises `AttributeError`.
   */
  function CardResult(card: Card, urljoin: (string, string) -> string): (r: Result<Option<Event>>)
    ensures r.Err? <==> (card.button.None? ||
      (card.button.value.Some? && card.button.value.value != "" && (card.title.None? || card.text.None?)))
    ensures r.Err? ==> r.error == AttributeError
  {
    if card.button.None? then Err(AttributeError)
    else if card.button.value.None? || card.button.value.value == "" then Ok(None)
    else if card.title.None? || card.text.None? then Err(AttributeError)
    else Ok(Some(Event(Strip(card.title.value), Strip(card.text.value), urljoin(BaseUrl, card.button.value.value))))
  }

  function CardResults(cards: seq<Card>, urljoin: (string, string) -> string): seq<Result<Option<Event>>>
  {
    seq(|cards|, i requires 0 <= i < |cards| => CardResult(cards[i], urljoin))
  }

  /** The events `get_events` returns: none when the home page could not be fetched. */
  function Discover(page: Option<seq<Card>>, urljoin: (string, string) -> string): Result<seq<Event>>
  {
    if page.None? then Ok([]) else Keep(CardResults(page.value, urljoin))
  }

  method ProcessCard(card: Card, urljoin: (string, string) -> string) returns (out: Result<Option<Event>>)
    ensures out == CardResult(card, urljoin)
  {
    if card.button.None? {
      return Err(AttributeError);
    }
    var href := card.button.value;
    if href.None? || href.value == "" {
      return Ok(None);
    }
    if card.title.None? || card.text.None? {
      return Err(AttributeError);
    }
    var sport := Strip(card.title.value);
    var name := Strip(card.text.value);
    out := Ok(Some(Event(sport, name, urljoin(BaseUrl, href.value))));
  }

  /** The loop of `get_events`. */
  method GetEvents(page: Option<seq<Card>>, urljoin: (string, string) -> string) returns (r: Result<seq<Event>>)
    ensures r == Discover(page, urljoin)
  {
    if page.None? {
      return Ok([]);
    }
    var cards := page.value;
    var rs := CardResults(cards, urljoin);
    var events: seq<Event> := [];
    var i := 0;
    while i < |cards|
      invariant 0 <= i <= |cards|
      invariant Keep(rs[..i]) == Ok(events)
    {
      KeepStep(rs, i);
      var out := ProcessCard(cards[i], urljoin);
      match out {
        case Err(e) =>
          KeepErrPersists(rs, i + 1, |rs|);
          assert rs[..|rs|] == rs;
          return Err(e);
        case Ok(None) =>
        case Ok(Some(ev)) =>
          events := events + [ev];
      }
      i := i + 1;
    }
    assert rs[..i] == rs;
    r := Ok(events);
  }

  /**
   * Discovery raises exactly when some card lacks a button, or has a button
   * with an "href" but lacks its title or text; the error is `AttributeError`.
   */
  lemma DiscoverRaises(page: Option<seq<Card>>, urljoin: (string, string) -> string)
    ensures Discover(page, urljoin).Err? <==>
      page.Some? && exists c :: c in page.value && CardResult(c, urljoin).Err?
    ensures Discover(page, urljoin).Err? ==> Discover(page, urljoin).error == AttributeError
  {
    if page.Some? {
      var rs := CardResults(page.value, urljoin);
      KeepMeaning(rs);
      if Keep(rs).Err? {
        var i :| 0 <= i < |rs| && rs[i] == Err(Keep(rs).error) && forall j :: 0 <= j < i ==> rs[j].Ok?;
        assert rs[i] == CardResult(page.value[i], urljoin);
        assert page.value[i] in page.value;
      }
      if exists c :: c in page.value && CardResult(c, urljoin).Err? {
        var c :| c in page.value && CardResult(c, urljoin).Err?;
        var i :| 0 <= i < |page.value| && page.value[i] == c;
        assert rs[i] == CardResult(c, urljoin);
      }
    }
  }

  /**
   * Every event comes from a card whose button has a non-empty "href": its
   * sport and name are the card's stripped title and text, its link the
   * "href" joined to the site.
   */
  lemma DiscoverSound(page: Option<seq<Card>>, urljoin: (string, string) -> string)
    ensures var r := Discover(page, urljoin);
      r.Ok? ==> forall ev :: ev in r.value ==>
        exists c :: (page.Some? && c in page.value && c.button.Some? && c.button.value.Some? &&
          c.button.value.value != "" && c.title.Some? && c.text.Some? &&
          ev == Event(Strip(c.title.value), Strip(c.text.value), urljoin(BaseUrl, c.button.value.value)))
  {
    if page.Some? {
      var rs := CardResults(page.value, urljoin);
      var P := (ev: Event) =>
        exists c :: (page.Some? && c in page.value && c.button.Some? && c.button.value.Some? &&
          c.button.value.value != "" && c.title.Some? && c.text.Some? &&
          ev == Event(Strip(c.title.value), Strip(c.text.value), urljoin(BaseUrl, c.button.value.value)));
      forall i | 0 <= i < |rs| && rs[i].Ok? && rs[i].value.Some? ensures P(rs[i].value.value) {
        var c := page.value[i];
        assert rs[i] == CardResult(c, urljoin);
        assert c in page.value;
        assert rs[i].value.value == Event(Strip(c.title.value), Strip(c.text.value), urljoin(BaseUrl, c.button.value.value));
      }
      KeepAll(rs, P);
    }
  }

  /** Conversely, a successful discovery keeps every card with an "href", title and text. */
  lemma DiscoverComplete(cards: seq<Card>, urljoin: (string, string) -> string, i: nat)
    requires i < |cards| && Discover(Some(cards), urljoin).Ok?
    requires var c := cards[i];
      c.button.Some? && c.button.value.Some? && c.button.value.value != "" && c.title.Some? && c.text.Some?
    ensures var c := cards[i];
      Event(Strip(c.title.value), Strip(c.text.value), urljoin(BaseUrl, c.button.value.value))
        in Discover(Some(cards), urljoin).value
  {
    var rs := CardResults(cards, urljoin);
    assert rs[i] == CardResult(cards[i], urljoin);
    KeepComplete(rs, i);
  }

  function Attempts(events: seq<Event>, fetchText: string -> Option<string>, table: Table, now: int)
    : seq<Result<Option<Attempt>>>
  {
    seq(|events|, i requires 0 <= i < |events| =>
      var ev := events[i];
      Found(Key(ev.sport, ev.name, Tag), ExtractUrl(fetchText(ev.link)), GetTvgInfo(table, ev.sport, ev.name),
            None, BaseUrl, now, None))
  }

  /**
   * What one `scrape` leaves behind, as (cache written, live map). A
   * non-empty cache becomes the live map and nothing is written; otherwise
   * every event whose page yields a URL is recorded, and the live map is
   * written back as the cache.
   */
  function Run(cached: map<string, Entry>, page: Option<seq<Card>>, fetchText: string -> Option<string>,
               table: Table, now: int, urljoin: (string, string) -> string)
    : Result<(Option<map<string, Entry>>, map<string, Entry>)>
  {
    if cached != map[] then Ok((None, cached))
    else
      match Discover(page, urljoin)
      case Err(e) => Err(e)
      case Ok(events) =>
        match Outcome(DropOnFailure, map[], map[], Attempts(events, fetchText, table, now))
        case Err(e) => Err(e)
        case Ok((_, live)) => Ok((Some(live), live))
  }

  /** `scrape` */
  method Scrape(cached: map<string, Entry>, page: Option<seq<Card>>, fetchText: string -> Option<string>,
                table: Table, now: int, urljoin: (string, string) -> string)
    returns (r: Result<(Option<map<string, Entry>>, map<string, Entry>)>)
    ensures r == Run(cached, page, fetchText, table, now, urljoin)
  {
    if cached != map[] {
      return Ok((None, cached));
    }
    var events := GetEvents(page, urljoin);
    if events.Err? {
      return Err(events.error);
    }
    var maps, added := RecordAttempts(DropOnFailure, map[], map[], Attempts(events.value, fetchText, table, now));
    if maps.Err? {
      return Err(maps.error);
    }
    var urls := maps.value.1;
    r := Ok((Some(urls), urls));
  }

  /**
   * A run either keeps a non-empty cache untouched and writes nothing, or
   * writes back exactly its live map, whose keys are those of the events
   * that yielded a URL and whose entries all carry a URL, the StreamBTW base
   * and the run's time.
   */
  lemma RunStores(cached: map<string, Entry>, page: Option<seq<Card>>, fetchText: string -> Option<string>,
                  table: Table, now: int, urljoin: (string, string) -> string)
    requires Run(cached, page, fetchText, table, now, urljoin).Ok?
    ensures var (written, live) := Run(cached, page, fetchText, table, now, urljoin).value;
      && (cached != map[] ==> written.None? && live == cached)
      && (cached == map[] ==>
           && written == Some(live)
           && live.Keys == LiveKeys(Keep(Attempts(Discover(page, urljoin).value, fetchText, table, now)).value)
           && forall k :: k in live ==> IsLive(live[k]) && live[k].base == BaseUrl && live[k].timestamp == now)
  {
    if cached == map[] {
      var events := Discover(page, urljoin).value;
      var outs := Attempts(events, fetchText, table, now);
      var atts := Keep(outs).value;
      DropGrowth(map[], atts);
      var P := (a: Attempt) => IsLive(a.entry) && a.entry.base == BaseUrl && a.entry.timestamp == now;
      forall i | 0 <= i < |outs| && outs[i].Ok? && outs[i].value.Some? ensures P(outs[i].value.value) {
        var ev := events[i];
        assert outs[i] == Found(Key(ev.sport, ev.name, Tag), ExtractUrl(fetchText(ev.link)),
          GetTvgInfo(table, ev.sport, ev.name), None, BaseUrl, now, None);
      }
      KeepAll(outs, P);
      RecordAllIsOverlay(DropOnFailure, map[], map[], atts);
      var live := Overlay(map[], atts, true);
      forall k | k in live ensures P(Attempt(k, live[k])) {
        LatestIn(atts, k, true);
        var i :| 0 <= i < |atts| && atts[i].key == k && atts[i].entry == Latest(atts, k, true).value;
        assert atts[i] in atts;
      }
    }
  }

  /** Each stored URL is one captured from the page of an event with the stored key. */
  lemma RunUrls(page: Option<seq<Card>>, fetchText: string -> Option<string>, table: Table, now: int,
                urljoin: (string, string) -> string)
    requires Run(map[], page, fetchText, table, now, urljoin).Ok?
    ensures var live := Run(map[], page, fetchText, table, now, urljoin).value.1;
      forall k :: k in live ==> exists ev :: (ev in Discover(page, urljoin).value && k == Key(ev.sport, ev.name, Tag) &&
        ExtractUrl(fetchText(ev.link)) == Some(live[k].url))
  {
    var events := Discover(page, urljoin).value;
    var outs := Attempts(events, fetchText, table, now);
    var atts := Keep(outs).value;
    var P := (a: Attempt) => exists ev :: (ev in events && a.key == Key(ev.sport, ev.name, Tag) &&
      ExtractUrl(fetchText(ev.link)) == Some(a.entry.url));
    forall i | 0 <= i < |outs| && outs[i].Ok? && outs[i].value.Some? ensures P(outs[i].value.value) {
      var ev := events[i];
      assert outs[i] == Found(Key(ev.sport, ev.name, Tag), ExtractUrl(fetchText(ev.link)),
        GetTvgInfo(table, ev.sport, ev.name), None, BaseUrl, now, None);
      assert ev in events;
    }
    KeepAll(outs, P);
    RecordAllIsOverlay(DropOnFailure, map[], map[], atts);
    var live := Overlay(map[], atts, true);
    forall k | k in live ensures P(Attempt(k, live[k])) {
      LatestIn(atts, k, true);
      var i :| 0 <= i < |atts| && atts[i].key == k && atts[i].entry == Latest(atts, k, true).value;
      assert atts[i] in atts;
    }
  }
}
