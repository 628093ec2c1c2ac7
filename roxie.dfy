/**
 * M3U8/scrapers/roxie.py: the Roxie adapter. Each sport page's events table
 * is read into a dict keyed by channel key; the uncached events starting
 * within half an hour of now are fetched, and the stream URL passed to the
 * page's `showPlayer('clappr', ...)` call is stored when there is one.
 */
module Roxie {
  import opened Outcomes
  import opened Text
  import opened Config
  import opened Store
  import opened Dicts
  import Webwork

  const Tag := "ROXIE"
  const Mirrors := ["https://roxiestreams.cc", "https://roxiestreams.live"]

  /** The sports scraped, each from the page `urljoin(base, sport.lower())`, in this order. */
  const Sports := ["Soccer", "MLB", "NBA", "NFL", "Fighting", "Motorsports"]

  predicate Quote(c: char)
  {
    c == '\'' || c == '"'
  }

  /** The end of the run of non-quote characters from `k`. */
  function NonQuoteEnd(s: string, k: nat): (r: nat)
    requires k <= |s|
    ensures k <= r <= |s|
    ensures forall i :: k <= i < r ==> !Quote(s[i])
    ensures r < |s| ==> Quote(s[r])
    decreases |s| - k
  {
    if k < |s| && !Quote(s[k]) then NonQuoteEnd(s, k + 1) else k
  }

  /**
   * The rest of the pattern after ".m3u8" ends at `t`: the optional query
   * `(?:\?[^'"]*)?`, which takes every non-quote character after a "?", then
   * `['"]\)`. The answer is where the captured group ends.
   */
  function TailEnd(s: string, t: nat): (r: Option<nat>)
    requires t <= |s|
    ensures r.Some? ==> t <= r.value && r.value + 1 < |s| && Quote(s[r.value]) && s[r.value + 1] == ')'
    ensures r.Some? ==> forall i :: t <= i < r.value ==> !Quote(s[i])
  {
    if t < |s| && s[t] == '?' then
      var r := NonQuoteEnd(s, t + 1);
      if r + 1 < |s| && s[r + 1] == ')' then Some(r) else None
    else if t + 1 < |s| && Quote(s[t]) && s[t + 1] == ')' then Some(t)
    else None
  }

  /**
   * The lazy `[^'"]+?\.m3u8` of a group starting at `g`, trying the ends `e`
   * from the shortest: the first at which ".m3u8" (any case) and a matching
   * tail follow. The characters up to `e` are known not to be quotes.
   */
  function GroupEnd(s: string, g: nat, e: nat): (r: Option<nat>)
    requires g < e <= |s|
    ensures r.Some? ==> e + 5 <= r.value && r.value + 1 < |s| && Quote(s[r.value]) && s[r.value + 1] == ')'
    ensures r.Some? ==> forall i :: e <= i < r.value ==> !Quote(s[i])
    ensures r.Some? ==> exists m :: e <= m && m + 5 <= r.value && At(Lower(s), ".m3u8", m)
    decreases |s| - e
  {
    if e + 5 <= |s| && At(Lower(s), ".m3u8", e) && TailEnd(s, e + 5).Some? then
      M3u8QuoteFree(s, e);
      TailEnd(s, e + 5)
    else if e < |s| && !Quote(s[e]) then GroupEnd(s, g, e + 1)
    else None
  }

  /** The five characters of ".m3u8", in any case, hold no quote. */
  lemma M3u8QuoteFree(s: string, e: nat)
    requires At(Lower(s), ".m3u8", e)
    ensures forall i :: e <= i < e + 5 ==> !Quote(s[i])
  {
    forall i | e <= i < e + 5 ensures !Quote(s[i]) {
      assert Lower(s)[i] == Lower(s)[e..e + 5][i - e];
      assert Lower(s)[i] == LowerChar(s[i]);
    }
  }

  /**
   * Where the group starts when `showPlayer\(['"]clappr['"],\s*['"]` matches
   * at `p` (letters in any case): after the opening quote of the second
   * argument.
   */
  function HeadEnd(s: string, p: nat): (r: Option<nat>)
    ensures r.Some? ==> p + 21 <= r.value <= |s| && Quote(s[r.value - 1])
  {
    var l := Lower(s);
    if At(l, "showplayer(", p) && p + 19 < |s| && Quote(s[p + 11]) && At(l, "clappr", p + 12) &&
       Quote(s[p + 18]) && s[p + 19] == ','
    then
      var w := SpaceRunEnd(s, p + 20);
      if w < |s| && Quote(s[w]) then Some(w + 1) else None
    else None
  }

  /** The captured group of a match starting at `p`, if the pattern matches there. */
  function MatchAt(s: string, p: nat): Option<string>
  {
    match HeadEnd(s, p)
    case None => None
    case Some(g) =>
      if g < |s| && !Quote(s[g]) then
        match GroupEnd(s, g, g + 1)
        case None => None
        case Some(e) => Some(s[g..e])
      else None
  }

  /** `valid_m3u8.search(text)`: the group of the leftmost match at or after `p`. */
  function SearchFrom(s: string, p: nat): Option<string>
  {
    FirstFrom((q: nat) => MatchAt(s, q), p, |s|)
  }

  /**
   * `process_event`: nothing when the page could not be fetched, otherwise
   * the captured stream URL, if any.
   */
  function ExtractStream(page: Option<string>): Option<string>
  {
    if page.None? then None else SearchFrom(page.value, 0)
  }

  /**
   * A captured URL is a quote-free text of the page that follows the
   * `showPlayer('clappr', '` head and precedes a closing quote and ")", and
   * it contains ".m3u8" in some case.
   */
  predicate Captures(s: string, g: nat, u: string)
  {
    && g + |u| + 1 < |s| && s[g..g + |u|] == u
    && (forall i :: 0 <= i < |u| ==> !Quote(u[i]))
    && Quote(s[g + |u|]) && s[g + |u| + 1] == ')'
    && exists m :: g < m && m + 5 <= g + |u| && At(Lower(s), ".m3u8", m)
  }

  /** A group that `GroupEnd` closes is captured. */
  lemma GroupCaptures(s: string, g: nat)
    requires g < |s| && !Quote(s[g]) && GroupEnd(s, g, g + 1).Some?
    ensures Captures(s, g, s[g..GroupEnd(s, g, g + 1).value])
  {
    var e := GroupEnd(s, g, g + 1).value;
    var m :| g + 1 <= m && m + 5 <= e && At(Lower(s), ".m3u8", m);
    ClosedGroup(s, g, e, m);
  }

  /** Quote-free text from g to e, holding ".m3u8" at m and closed by a quote and ")", is captured. */
  lemma ClosedGroup(s: string, g: nat, e: nat, m: nat)
    requires g < m && m + 5 <= e && e + 1 < |s| && Quote(s[e]) && s[e + 1] == ')'
    requires forall i :: g <= i < e ==> !Quote(s[i])
    requires At(Lower(s), ".m3u8", m)
    ensures Captures(s, g, s[g..e])
  {
    var u := s[g..e];
    assert g + |u| == e;
    forall i | 0 <= i < |u| ensures !Quote(u[i]) {
      assert u[i] == s[g + i];
    }
  }

  lemma MatchAtSound(s: string, p: nat)
    requires MatchAt(s, p).Some?
    ensures HeadEnd(s, p).Some? && Captures(s, HeadEnd(s, p).value, MatchAt(s, p).value)
  {
    var g := HeadEnd(s, p).value;
    GroupCaptures(s, g);
  }

  /**
   * The search finds something exactly when the pattern matches at some
   * position, and then it returns the match at the leftmost such position.
   */
  lemma SearchFromMeaning(s: string, p: nat)
    ensures SearchFrom(s, p).Some? <==> exists q :: p <= q <= |s| && MatchAt(s, q).Some?
    ensures SearchFrom(s, p).Some? ==> exists q :: (p <= q <= |s| && SearchFrom(s, p) == MatchAt(s, q) &&
      forall q' :: p <= q' < q ==> MatchAt(s, q').None?)
  {
    var f := (q: nat) => MatchAt(s, q);
    FirstFromMeaning(f, p, |s|);
    assert forall q :: f(q) == MatchAt(s, q);
  }

  /** A table row's "td a" (its text and "href"). */
  datatype RowLink = RowLink(text: string, href: Option<string>)

  /**
   * A countdown's "data-start" as `Time.from_str` reads it with the format
   * "%B %d, %Y %H:%M:%S": missing, not in that format, or a time.
   */
  datatype DataStart = Missing | Malformed | Start(t: int)

  /** A table row: its link, and its "span.countdown-timer" with its "data-start". */
  datatype Row = Row(link: Option<RowLink>, countdown: Option<DataStart>)

  /** A row that raises: a link, an href, and a countdown whose "data-start" is missing or does not parse. */
  predicate Raises(row: Row)
  {
    row.link.Some? && row.link.value.href.Some? && row.link.value.href.value != "" &&
    row.countdown.Some? && !row.countdown.value.Start?
  }

  /** One event of the HTML cache. */
  datatype Ev = Ev(sport: string, event: string, link: string, eventTs: int, timestamp: int)

  /**
   * One row of a sport's table: skipped without a link, an href or a
   * countdown; a countdown without "data-start" raises `KeyError`, and
   * one whose "data-start" does not parse raises `ValueError`.
   */
  function RowResult(sport: string, row: Row, nowTs: int): Result<Option<(string, Ev)>>
  {
    if row.link.None? || row.link.value.href.None? || row.link.value.href.value == "" || row.countdown.None? then
      Ok(None)
    else if row.countdown.value.Missing? then Err(KeyError)
    else if row.countdown.value.Malformed? then Err(ValueError)
    else
      var a := row.link.value;
      Ok(Some((Key(sport, a.text, Tag), Ev(sport, a.text, a.href.value, row.countdown.value.t, nowTs))))
  }

  function RowResults(sport: string, rows: seq<Row>, nowTs: int): seq<Result<Option<(string, Ev)>>>
  {
    seq(|rows|, i requires 0 <= i < |rows| => RowResult(sport, rows[i], nowTs))
  }

  /**
   * `refresh_html_cache`: `{}` when the page could not be fetched; otherwise
   * every kept row assigned in turn under its key, so a later row with the
   * same key overwrites an earlier one.
   */
  function RefreshHtml(sport: string, page: Option<seq<Row>>, nowTs: int): (r: Result<Dict<Ev>>)
    ensures r.Ok? ==> Valid(r.value)
  {
    if page.None? then Ok(Empty())
    else
      match Keep(RowResults(sport, page.value, nowTs))
      case Err(e) => Err(e)
      case Ok(pairs) => Ok(SetAll(Empty(), pairs))
  }

  /** The row loop of `refresh_html_cache`. */
  method RefreshHtmlCache(sport: string, page: Option<seq<Row>>, nowTs: int) returns (r: Result<Dict<Ev>>)
    ensures r == RefreshHtml(sport, page, nowTs)
  {
    if page.None? {
      return Ok(Empty());
    }
    var rows := page.value;
    var rs := RowResults(sport, rows, nowTs);
    var events: Dict<Ev> := Empty();
    ghost var pairs: seq<(string, Ev)> := [];
    var i := 0;
    while i < |rows|
      invariant 0 <= i <= |rows|
      invariant Keep(rs[..i]) == Ok(pairs)
      invariant events == SetAll(Empty(), pairs)
    {
      KeepStep(rs, i);
      var row := rows[i];
      if row.link.Some? && row.link.value.href.Some? && row.link.value.href.value != "" && row.countdown.Some? {
        if !row.countdown.value.Start? {
          KeepErrPersists(rs, i + 1, |rows|);
          assert rs[..|rows|] == rs;
          return Err(if row.countdown.value.Missing? then KeyError else ValueError);
        }
        var a := row.link.value;
        var key := Key(sport, a.text, Tag);
        var ev := Ev(sport, a.text, a.href.value, row.countdown.value.t, nowTs);
        assert (pairs + [(key, ev)])[..|pairs|] == pairs;
        events := Set(events, key, ev);
        pairs := pairs + [(key, ev)];
      }
      i := i + 1;
    }
    assert rs[..i] == rs;
    r := Ok(events);
  }

  /**
   * Every event of a refreshed sport table is keyed by its sport and name,
   * has a link, carries the refresh time, and comes from a row with a link,
   * an href and a countdown holding its start.
   */
  lemma RefreshHtmlSound(sport: string, page: Option<seq<Row>>, nowTs: int)
    ensures var r := RefreshHtml(sport, page, nowTs);
      r.Ok? ==> forall k :: k in r.value.vals ==>
        var ev := r.value.vals[k];
        && k == Key(sport, ev.event, Tag) && ev.sport == sport && ev.link != "" && ev.timestamp == nowTs
        && exists row :: row in page.value &&
             row == Row(Some(RowLink(ev.event, Some(ev.link))), Some(Start(ev.eventTs)))
  {
    if page.Some? {
      var rs := RowResults(sport, page.value, nowTs);
      var P := (kv: (string, Ev)) =>
        var ev := kv.1;
        && kv.0 == Key(sport, ev.event, Tag) && ev.sport == sport && ev.link != "" && ev.timestamp == nowTs
        && exists row :: row in page.value &&
             row == Row(Some(RowLink(ev.event, Some(ev.link))), Some(Start(ev.eventTs)));
      forall i | 0 <= i < |rs| && rs[i].Ok? && rs[i].value.Some? ensures P(rs[i].value.value) {
        var row := page.value[i];
        assert row in page.value;
      }
      KeepAll(rs, P);
      if Keep(rs).Ok? {
        var pairs := Keep(rs).value;
        SetAllMeaning(Empty(), pairs);
        forall k | k in SetAll(Empty(), pairs).vals ensures P((k, SetAll(Empty(), pairs).vals[k])) {
          LastForIn(pairs, k);
          var i :| 0 <= i < |pairs| && pairs[i] == (k, LastFor(pairs, k).value);
          assert pairs[i] in pairs;
        }
      }
    }
  }

  /** Every row with a link, an href and a full countdown has its key in the refreshed table. */
  lemma RefreshHtmlComplete(sport: string, rows: seq<Row>, nowTs: int, i: nat)
    requires i < |rows|
    requires RefreshHtml(sport, Some(rows), nowTs).Ok?
    requires rows[i].link.Some? && rows[i].link.value.href.Some? && rows[i].link.value.href.value != ""
    requires rows[i].countdown.Some?
    ensures Key(sport, rows[i].link.value.text, Tag) in RefreshHtml(sport, Some(rows), nowTs).value.vals
  {
    var rs := RowResults(sport, rows, nowTs);
    KeepMeaning(rs);
    assert rs[i].Ok?;
    KeepComplete(rs, i);
    var pairs := Keep(rs).value;
    var j :| 0 <= j < |pairs| && pairs[j] == rs[i].value.value;
    LastForSome(pairs, j);
    SetAllMeaning(Empty(), pairs);
  }

  /**
   * A refresh raises exactly when some row has a link, an href and a
   * countdown whose "data-start" is missing or does not parse; the first such
   * row decides the error, `KeyError` for a missing one and `ValueError` for
   * one that does not parse.
   */
  lemma RefreshHtmlRaises(sport: string, rows: seq<Row>, nowTs: int)
    ensures RefreshHtml(sport, Some(rows), nowTs).Err? <==> exists row :: row in rows && Raises(row)
    ensures RefreshHtml(sport, Some(rows), nowTs).Err? ==>
      exists i :: (0 <= i < |rows| && Raises(rows[i]) && (forall j :: 0 <= j < i ==> !Raises(rows[j])) &&
        RefreshHtml(sport, Some(rows), nowTs).error == if rows[i].countdown.value.Missing? then KeyError else ValueError)
  {
    var rs := RowResults(sport, rows, nowTs);
    KeepMeaning(rs);
    assert forall i :: 0 <= i < |rows| ==> (rs[i].Err? <==> Raises(rows[i]));
    if Keep(rs).Err? {
      var i :| 0 <= i < |rs| && rs[i] == Err(Keep(rs).error) && forall j :: 0 <= j < i ==> rs[j].Ok?;
      assert rows[i] in rows;
    }
    if exists row :: row in rows && Raises(row) {
      var row :| row in rows && Raises(row);
      var i :| 0 <= i < |rows| && rows[i] == row;
      assert !rs[i].Ok?;
    }
  }

  /**
   * The gathered refresh of every sport merged in sport order by the dict
   * comprehension: the first sport whose refresh raised decides the error.
   */
  function RefreshAll(sports: seq<string>, base: string, fetchPage: string -> Option<seq<Row>>, nowTs: int,
                      urljoin: (string, string) -> string): (r: Result<Dict<Ev>>)
    ensures r.Ok? ==> Valid(r.value)
    decreases |sports|
  {
    if sports == [] then Ok(Empty())
    else
      var sport := sports[|sports| - 1];
      match RefreshAll(sports[..|sports| - 1], base, fetchPage, nowTs, urljoin)
      case Err(e) => Err(e)
      case Ok(d) =>
        match RefreshHtml(sport, fetchPage(urljoin(base, Lower(sport))), nowTs)
        case Err(e) => Err(e)
        case Ok(e) => Ok(SetAll(d, Items(e)))
  }

  /** The inner loop of the comprehension: one table's items copied in. */
  method CopyInto(d: Dict<Ev>, e: Dict<Ev>) returns (r: Dict<Ev>)
    requires Valid(d) && Valid(e)
    ensures r == SetAll(d, Items(e))
  {
    var items := Items(e);
    r := d;
    var k := 0;
    assert items[..0] == [];
    while k < |items|
      invariant 0 <= k <= |items|
      invariant r == SetAll(d, items[..k])
    {
      assert items[..k + 1][..k] == items[..k];
      r := Set(r, items[k].0, items[k].1);
      k := k + 1;
    }
    assert items[..k] == items;
  }

  /** The refresh branch of `get_events`: every sport refreshed, then merged. */
  method RefreshSports(base: string, fetchPage: string -> Option<seq<Row>>, nowTs: int,
                       urljoin: (string, string) -> string) returns (r: Result<Dict<Ev>>)
    ensures r == RefreshAll(Sports, base, fetchPage, nowTs, urljoin)
  {
    var events: Dict<Ev> := Empty();
    var i := 0;
    while i < |Sports|
      invariant 0 <= i <= |Sports|
      invariant RefreshAll(Sports[..i], base, fetchPage, nowTs, urljoin) == Ok(events)
    {
      assert Sports[..i + 1][..i] == Sports[..i];
      var sport := Sports[i];
      var data := RefreshHtmlCache(sport, fetchPage(urljoin(base, Lower(sport))), nowTs);
      if data.Err? {
        RefreshAllErrPersists(Sports, i + 1, base, fetchPage, nowTs, urljoin);
        return Err(data.error);
      }
      events := CopyInto(events, data.value);
      i := i + 1;
    }
    assert Sports[..i] == Sports;
    r := Ok(events);
  }

  /** Once a refresh raises, the whole refresh raises the same error. */
  lemma {:induction false} RefreshAllErrPersists(sports: seq<string>, k: nat, base: string,
                                                 fetchPage: string -> Option<seq<Row>>, nowTs: int,
                                                 urljoin: (string, string) -> string)
    requires k <= |sports| && RefreshAll(sports[..k], base, fetchPage, nowTs, urljoin).Err?
    ensures RefreshAll(sports, base, fetchPage, nowTs, urljoin) == RefreshAll(sports[..k], base, fetchPage, nowTs, urljoin)
    decreases |sports| - k
  {
    if k < |sports| {
      assert sports[..k + 1][..k] == sports[..k];
      RefreshAllErrPersists(sports, k + 1, base, fetchPage, nowTs, urljoin);
    } else {
      assert sports[..k] == sports;
    }
  }

  /**
   * Every event of the merged table comes from the refresh of one sport, and
   * is the value that sport's table holds for the key.
   */
  lemma {:induction false} RefreshAllSound(sports: seq<string>, base: string, fetchPage: string -> Option<seq<Row>>,
                                           nowTs: int, urljoin: (string, string) -> string)
    ensures var r := RefreshAll(sports, base, fetchPage, nowTs, urljoin);
      r.Ok? ==> forall k :: k in r.value.vals ==>
        exists sport :: sport in sports &&
          var t := RefreshHtml(sport, fetchPage(urljoin(base, Lower(sport))), nowTs);
          t.Ok? && k in t.value.vals && t.value.vals[k] == r.value.vals[k]
    decreases |sports|
  {
    if sports != [] {
      var init, sport := sports[..|sports| - 1], sports[|sports| - 1];
      RefreshAllSound(init, base, fetchPage, nowTs, urljoin);
      var r := RefreshAll(sports, base, fetchPage, nowTs, urljoin);
      if r.Ok? {
        var d := RefreshAll(init, base, fetchPage, nowTs, urljoin).value;
        var e := RefreshHtml(sport, fetchPage(urljoin(base, Lower(sport))), nowTs).value;
        CopyItems(d, e);
        forall k | k in r.value.vals
          ensures exists s :: (s in sports &&
            var t := RefreshHtml(s, fetchPage(urljoin(base, Lower(s))), nowTs);
            t.Ok? && k in t.value.vals && t.value.vals[k] == r.value.vals[k])
        {
          if k in e.vals {
            assert sport in sports;
          } else {
            var s :| s in init &&
              var t := RefreshHtml(s, fetchPage(urljoin(base, Lower(s))), nowTs);
              t.Ok? && k in t.value.vals && t.value.vals[k] == d.vals[k];
            assert s in sports;
          }
        }
      }
    }
  }

  /**
   * The table `get_events` filters: the HTML cache when it holds anything,
   * otherwise a refresh of every sport.
   */
  function HtmlEvents(htmlCache: Option<Dict<Ev>>, base: string, fetchPage: string -> Option<seq<Row>>, now: int,
                      urljoin: (string, string) -> string): (r: Result<Dict<Ev>>)
    requires htmlCache.Some? ==> Valid(htmlCache.value)
    ensures r.Ok? ==> Valid(r.value)
  {
    if htmlCache.Some? && htmlCache.value.vals != map[] then Ok(htmlCache.value)
    else RefreshAll(Sports, base, fetchPage, Clean(now), urljoin)
  }

  /** One entry of the table: skipped when its key is cached, then when it starts outside the window. */
  function FreshResults(d: Dict<Ev>, cachedKeys: set<string>, now: int): seq<Result<Option<Ev>>>
    requires Valid(d)
  {
    seq(|d.order|, i requires 0 <= i < |d.order| =>
      var k := d.order[i];
      if k in cachedKeys then Ok(None)
      else if !Within(d.vals[k].eventTs, Clean(now), 1800, 1800) then Ok(None)
      else Ok(Some(d.vals[k])))
  }

  /** What `get_events` returns for a table. */
  function Fresh(d: Dict<Ev>, cachedKeys: set<string>, now: int): seq<Ev>
    requires Valid(d)
  {
    Kept(FreshResults(d, cachedKeys, now))
  }

  /** The filter loop of `get_events`, over the table in its order. */
  method FilterEvents(d: Dict<Ev>, cachedKeys: set<string>, now: int) returns (live: seq<Ev>)
    requires Valid(d)
    ensures live == Fresh(d, cachedKeys, now)
  {
    var rs := FreshResults(d, cachedKeys, now);
    var startTs, endTs := Clean(now) - 1800, Clean(now) + 1800;
    live := [];
    var i := 0;
    while i < |d.order|
      invariant 0 <= i <= |d.order|
      invariant Keep(rs[..i]) == Ok(live)
    {
      KeepStep(rs, i);
      var k := d.order[i];
      if k !in cachedKeys {
        var v := d.vals[k];
        if startTs <= v.eventTs <= endTs {
          live := live + [v];
        }
      }
      i := i + 1;
    }
    assert rs[..i] == rs;
    KeepMeaning(rs);
  }

  /**
   * `get_events` returns exactly the table's events whose key is not cached
   * and whose start is inside the window.
   */
  lemma FreshMeaning(d: Dict<Ev>, cachedKeys: set<string>, now: int, ev: Ev)
    requires Valid(d)
    ensures ev in Fresh(d, cachedKeys, now) <==>
      exists k :: k in d.vals && k !in cachedKeys && Within(d.vals[k].eventTs, Clean(now), 1800, 1800) && d.vals[k] == ev
  {
    var rs := FreshResults(d, cachedKeys, now);
    KeepMeaning(rs);
    var P := (e: Ev) =>
      exists k :: k in d.vals && k !in cachedKeys && Within(d.vals[k].eventTs, Clean(now), 1800, 1800) && d.vals[k] == e;
    forall i | 0 <= i < |rs| && rs[i].Ok? && rs[i].value.Some? ensures P(rs[i].value.value) {
      assert d.order[i] in d.vals;
    }
    KeepAll(rs, P);
    if P(ev) {
      var k :| k in d.vals && k !in cachedKeys && Within(d.vals[k].eventTs, Clean(now), 1800, 1800) && d.vals[k] == ev;
      var i :| 0 <= i < |d.order| && d.order[i] == k;
      KeepComplete(rs, i);
    }
  }

  function Attempts(events: seq<Ev>, fetchText: string -> Option<string>, table: Table): seq<Result<Option<Attempt>>>
  {
    seq(|events|, i requires 0 <= i < |events| =>
      var ev := events[i];
      Found(Key(ev.sport, ev.event, Tag), ExtractStream(fetchText(ev.link)), GetTvgInfo(table, ev.sport, ev.event),
            None, "", ev.eventTs, None))
  }

  /**
   * What one `scrape` leaves behind, as (cache written, live map): the cache
   * unchanged when no mirror answers; otherwise the error of a refresh that
   * raised, or each fresh event resolved and recorded if it produced a URL.
   */
  function Run(cached: map<string, Entry>, probes: seq<Webwork.Probe>, htmlCache: Option<Dict<Ev>>,
               fetchPage: string -> Option<seq<Row>>, fetchText: string -> Option<string>, now: int, table: Table,
               urljoin: (string, string) -> string): Result<(map<string, Entry>, map<string, Entry>)>
    requires |probes| == |Mirrors|
    requires htmlCache.Some? ==> Valid(htmlCache.value)
  {
    match Webwork.GetBase(Mirrors, probes)
    case None => Ok((cached, cached))
    case Some(base) =>
      match HtmlEvents(htmlCache, base, fetchPage, now, urljoin)
      case Err(e) => Err(e)
      case Ok(d) => Outcome(DropOnFailure, cached, cached, Attempts(Fresh(d, cached.Keys, now), fetchText, table))
  }

  /** `scrape`. */
  method Scrape(cached: map<string, Entry>, probes: seq<Webwork.Probe>, htmlCache: Option<Dict<Ev>>,
                fetchPage: string -> Option<seq<Row>>, fetchText: string -> Option<string>, now: int, table: Table,
                urljoin: (string, string) -> string) returns (r: Result<(map<string, Entry>, map<string, Entry>)>)
    requires |probes| == |Mirrors|
    requires htmlCache.Some? ==> Valid(htmlCache.value)
    ensures r == Run(cached, probes, htmlCache, fetchPage, fetchText, now, table, urljoin)
  {
    var base := Webwork.GetBase(Mirrors, probes);
    if base.None? {
      return Ok((cached, cached));
    }
    var events: Dict<Ev>;
    if htmlCache.Some? && htmlCache.value.vals != map[] {
      events := htmlCache.value;
    } else {
      var refreshed := RefreshSports(base.value, fetchPage, Clean(now), urljoin);
      if refreshed.Err? {
        return Err(refreshed.error);
      }
      events := refreshed.value;
    }
    var live := FilterEvents(events, cached.Keys, now);
    var added;
    r, added := RecordAttempts(DropOnFailure, cached, cached, Attempts(live, fetchText, table));
  }

  /**
   * After a successful run the cache and the live map are equal and hold the
   * cached entries and the resolved events; every new entry has a URL, an
   * empty base, and as timestamp its event's start, inside the window.
   */
  lemma RunStores(cached: map<string, Entry>, probes: seq<Webwork.Probe>, htmlCache: Option<Dict<Ev>>,
                  fetchPage: string -> Option<seq<Row>>, fetchText: string -> Option<string>, now: int, table: Table,
                  urljoin: (string, string) -> string)
    requires |probes| == |Mirrors|
    requires htmlCache.Some? ==> Valid(htmlCache.value)
    requires Run(cached, probes, htmlCache, fetchPage, fetchText, now, table, urljoin).Ok?
    ensures var (c, l) := Run(cached, probes, htmlCache, fetchPage, fetchText, now, table, urljoin).value;
      && c == l && cached.Keys <= c.Keys
      && forall k :: k in c && k !in cached ==>
           IsLive(c[k]) && c[k].base == "" && Within(c[k].timestamp, Clean(now), 1800, 1800)
  {
    var base := Webwork.GetBase(Mirrors, probes);
    if base.Some? {
      var d := HtmlEvents(htmlCache, base.value, fetchPage, now, urljoin).value;
      var events := Fresh(d, cached.Keys, now);
      var outs := Attempts(events, fetchText, table);
      var atts := Keep(outs).value;
      DropGrowth(cached, atts);
      var P := (a: Attempt) => IsLive(a.entry) && a.entry.base == "" && Within(a.entry.timestamp, Clean(now), 1800, 1800);
      forall i | 0 <= i < |outs| && outs[i].Ok? && outs[i].value.Some? ensures P(outs[i].value.value) {
        var ev := events[i];
        FreshMeaning(d, cached.Keys, now, ev);
        assert outs[i] == Found(Key(ev.sport, ev.event, Tag), ExtractStream(fetchText(ev.link)),
          GetTvgInfo(table, ev.sport, ev.event), None, "", ev.eventTs, None);
      }
      KeepAll(outs, P);
      RecordAllIsOverlay(DropOnFailure, cached, cached, atts);
      forall k | k in Overlay(cached, atts, true) && k !in cached ensures P(Attempt(k, Overlay(cached, atts, true)[k])) {
        LatestIn(atts, k, true);
        var i :| 0 <= i < |atts| && atts[i].key == k && atts[i].entry == Latest(atts, k, true).value;
        assert atts[i] in atts;
      }
    }
  }

  /**
   * After a successful run with a working mirror the cache holds the cached
   * keys plus the key of every event that found a URL, and each new entry's
   * timestamp is the start (`event_ts`) of the fresh event it was stored for.
   */
  lemma RunStarts(cached: map<string, Entry>, probes: seq<Webwork.Probe>, htmlCache: Option<Dict<Ev>>,
                  fetchPage: string -> Option<seq<Row>>, fetchText: string -> Option<string>, now: int, table: Table,
                  urljoin: (string, string) -> string)
    requires |probes| == |Mirrors|
    requires htmlCache.Some? ==> Valid(htmlCache.value)
    requires Run(cached, probes, htmlCache, fetchPage, fetchText, now, table, urljoin).Ok?
    requires Webwork.GetBase(Mirrors, probes).Some?
    ensures var d := HtmlEvents(htmlCache, Webwork.GetBase(Mirrors, probes).value, fetchPage, now, urljoin).value;
      var events := Fresh(d, cached.Keys, now);
      var c := Run(cached, probes, htmlCache, fetchPage, fetchText, now, table, urljoin).value.0;
      && c.Keys == cached.Keys + LiveKeys(Keep(Attempts(events, fetchText, table)).value)
      && forall k :: k in c && k !in cached ==>
           exists ev :: ev in events && Key(ev.sport, ev.event, Tag) == k && c[k].timestamp == ev.eventTs
  {
    var base := Webwork.GetBase(Mirrors, probes).value;
    var d := HtmlEvents(htmlCache, base, fetchPage, now, urljoin).value;
    var events := Fresh(d, cached.Keys, now);
    var outs := Attempts(events, fetchText, table);
    var atts := Keep(outs).value;
    DropGrowth(cached, atts);
    var P := (a: Attempt) => exists ev :: ev in events && Key(ev.sport, ev.event, Tag) == a.key && a.entry.timestamp == ev.eventTs;
    forall i | 0 <= i < |outs| && outs[i].Ok? && outs[i].value.Some? ensures P(outs[i].value.value) {
      var ev := events[i];
      assert outs[i] == Found(Key(ev.sport, ev.event, Tag), ExtractStream(fetchText(ev.link)),
        GetTvgInfo(table, ev.sport, ev.event), None, "", ev.eventTs, None);
      assert ev in events;
    }
    KeepAll(outs, P);
    RecordAllIsOverlay(DropOnFailure, cached, cached, atts);
    OverlayNew(cached, atts, true, P);
  }
}
