/**
 * M3U8/scrapers/old/ace.py: the legacy Ace adapter. The schedule page of the
 * first working mirror lists events as links; each event page offers its
 * streams in the "onclick" handlers of its buttons and in its player iframe,
 * and every stream link found is stored under a key numbered from 1.
 */
module Ace {
  import opened Outcomes
  import opened Text
  import opened Config
  import opened Store
  import opened Dicts
  import Webwork

  const Mirrors := ["https://aceztrims.pages.dev/", "https://acestrlms.pages.dev/"]

  /** The CORS proxy whose prefix is cut off the iframe's stream link. */
  const CorsHost := "cors.ricohspaces.app/"

  /** `is_valid_href`: a site-relative link other than the news page. */
  predicate IsValidHref(href: string)
  {
    StartsWith(href, "/") && href != "/news/"
  }

  /** The title after the time: the stripped text after the first "//", else the whole text. */
  function AfterTime(text: string): string
  {
    match IndexOf(text, "//")
    case None => text
    case Some(i) => Strip(text[i + 2..])
  }

  /**
   * The (sport, event) of a link text: the stripped parts either side of the
   * first " - " of the title, else no sport and the whole title.
   */
  function Title(text: string): (string, string)
  {
    var after := AfterTime(text);
    match IndexOf(after, " - ")
    case None => ("", after)
    case Some(i) => (Strip(after[..i]), Strip(after[i + 3..]))
  }

  /** The first occurrence of `sub` in `s` is at `i`. */
  predicate FirstAt(s: string, sub: string, i: nat)
  {
    At(s, sub, i) && forall j :: 0 <= j < i ==> !At(s, sub, j)
  }

  /** `IndexOf` finds exactly the first occurrence. */
  lemma IndexOfFirst(s: string, sub: string)
    ensures IndexOf(s, sub).None? <==> forall j: nat :: !At(s, sub, j)
    ensures forall i: nat :: FirstAt(s, sub, i) <==> IndexOf(s, sub) == Some(i)
  {
    forall i | FirstAt(s, sub, i) ensures IndexOf(s, sub) == Some(i) {
      assert IndexOf(s, sub).Some?;
      var k := IndexOf(s, sub).value;
      assert !(k < i) && !(i < k);
    }
  }

  /**
   * The title splitting, stated by occurrences: without "//" the title is the
   * whole text, else the stripped rest after its first "//"; without " - " the
   * sport is empty and the event is the title, else they are the stripped
   * parts either side of its first " - ".
   */
  lemma TitleMeaning(text: string)
    ensures (forall j: nat :: !At(text, "//", j)) ==> AfterTime(text) == text
    ensures forall i: nat :: FirstAt(text, "//", i) ==> AfterTime(text) == Strip(text[i + 2..])
    ensures var after := AfterTime(text);
      (forall j: nat :: !At(after, " - ", j)) ==> Title(text) == ("", after)
    ensures var after := AfterTime(text);
      forall i: nat :: FirstAt(after, " - ", i) ==> Title(text) == (Strip(after[..i]), Strip(after[i + 3..]))
  {
    AfterTimeMeaning(text);
    TitleSplitMeaning(text);
  }

  lemma AfterTimeMeaning(text: string)
    ensures (forall j: nat :: !At(text, "//", j)) ==> AfterTime(text) == text
    ensures forall i: nat :: FirstAt(text, "//", i) ==> AfterTime(text) == Strip(text[i + 2..])
  {
    IndexOfFirst(text, "//");
  }

  lemma TitleSplitMeaning(text: string)
    ensures var after := AfterTime(text);
      (forall j: nat :: !At(after, " - ", j)) ==> Title(text) == ("", after)
    ensures var after := AfterTime(text);
      forall i: nat :: FirstAt(after, " - ", i) ==> Title(text) == (Strip(after[..i]), Strip(after[i + 3..]))
  {
    IndexOfFirst(AfterTime(text), " - ");
  }

  /** A link of the schedule page: its "href" ("" when missing) and its stripped text. */
  datatype Anchor = Anchor(href: string, text: string)

  /** One schedule entry: `{"sport", "event", "href"}`. */
  datatype Item = Item(sport: string, event: string, href: string)

  function ItemOf(a: Anchor, base: string, urljoin: (string, string) -> string): Item
  {
    var (sport, event) := Title(a.text);
    Item(sport, event, urljoin(base, a.href))
  }

  /** The schedule read off the page's links, in order, keeping those with a valid href. */
  function ScheduleOf(anchors: seq<Anchor>, base: string, urljoin: (string, string) -> string): seq<Item>
    decreases |anchors|
  {
    if anchors == [] then []
    else
      var a := anchors[|anchors| - 1];
      ScheduleOf(anchors[..|anchors| - 1], base, urljoin) + (if IsValidHref(a.href) then [ItemOf(a, base, urljoin)] else [])
  }

  /** `get_schedule`: nothing when the page could not be fetched. */
  function Schedule(home: Option<seq<Anchor>>, base: string, urljoin: (string, string) -> string): seq<Item>
  {
    if home.None? then [] else ScheduleOf(home.value, base, urljoin)
  }

  /** The loop of `get_schedule` over the page's links. */
  method GetSchedule(home: Option<seq<Anchor>>, base: string, urljoin: (string, string) -> string)
    returns (events: seq<Item>)
    ensures events == Schedule(home, base, urljoin)
  {
    events := [];
    if home.None? {
      return;
    }
    var anchors := home.value;
    var i := 0;
    while i < |anchors|
      invariant 0 <= i <= |anchors|
      invariant events == ScheduleOf(anchors[..i], base, urljoin)
    {
      assert anchors[..i + 1][..i] == anchors[..i];
      var a := anchors[i];
      if IsValidHref(a.href) {
        var (sport, event) := Title(a.text);
        events := events + [Item(sport, event, urljoin(base, a.href))];
      }
      i := i + 1;
    }
    assert anchors[..i] == anchors;
  }

  /** Every schedule item comes, in page order, from a link whose href is valid. */
  lemma {:induction false} ScheduleSound(anchors: seq<Anchor>, base: string, urljoin: (string, string) -> string)
    ensures |ScheduleOf(anchors, base, urljoin)| <= |anchors|
    ensures forall x :: x in ScheduleOf(anchors, base, urljoin) ==>
      exists i :: 0 <= i < |anchors| && IsValidHref(anchors[i].href) && x == ItemOf(anchors[i], base, urljoin)
    decreases |anchors|
  {
    if anchors != [] {
      var init, a := anchors[..|anchors| - 1], anchors[|anchors| - 1];
      ScheduleSound(init, base, urljoin);
      forall x | x in ScheduleOf(anchors, base, urljoin)
        ensures exists i :: 0 <= i < |anchors| && IsValidHref(anchors[i].href) && x == ItemOf(anchors[i], base, urljoin)
      {
        if x in ScheduleOf(init, base, urljoin) {
          var i :| 0 <= i < |init| && IsValidHref(init[i].href) && x == ItemOf(init[i], base, urljoin);
          assert anchors[i] == init[i];
        } else {
          assert x == ItemOf(anchors[|anchors| - 1], base, urljoin);
        }
      }
    }
  }

  /** Every link whose href is valid gives its item to the schedule. */
  lemma {:induction false} ScheduleComplete(anchors: seq<Anchor>, base: string, urljoin: (string, string) -> string, i: nat)
    requires i < |anchors| && IsValidHref(anchors[i].href)
    ensures ItemOf(anchors[i], base, urljoin) in ScheduleOf(anchors, base, urljoin)
    decreases |anchors|
  {
    var init := anchors[..|anchors| - 1];
    if i < |init| {
      assert anchors[i] == init[i];
      ScheduleComplete(init, base, urljoin, i);
    }
  }

  predicate Quote(c: char)
  {
    c == '\'' || c == '"'
  }

  /** The end of the run from `k` that the lazy `.*?` may pass over: no quote, no newline. */
  function ValueEnd(s: string, k: nat): (r: nat)
    requires k <= |s|
    ensures k <= r <= |s|
    ensures forall i :: k <= i < r ==> !Quote(s[i]) && s[i] != '\n'
    ensures r < |s| ==> Quote(s[r]) || s[r] == '\n'
    decreases |s| - k
  {
    if k < |s| && !Quote(s[k]) && s[k] != '\n' then ValueEnd(s, k + 1) else k
  }

  /**
   * The group of `src\s*=\s*['"](.*?)['"]` when it matches at `p`: "src", an
   * "=" between optional whitespace, a quote, and the text up to the next
   * quote of either kind, which must come before any newline.
   */
  function SrcAt(s: string, p: nat): Option<string>
  {
    if !At(s, "src", p) then None
    else
      var a := SpaceRunEnd(s, p + 3);
      if a < |s| && s[a] == '=' then
        var b := SpaceRunEnd(s, a + 1);
        if b < |s| && Quote(s[b]) then
          var c := ValueEnd(s, b + 1);
          if c < |s| && Quote(s[c]) then Some(s[b + 1..c]) else None
        else None
      else None
  }

  /** `re.search(...)[1]` from position `p`: the group of the leftmost match. */
  function SearchSrc(s: string, p: nat): Option<string>
    decreases |s| + 1 - p
  {
    if p > |s| then None
    else if SrcAt(s, p).Some? then SrcAt(s, p)
    else SearchSrc(s, p + 1)
  }

  /**
   * A captured value is a quoted text of the handler: it stands between two
   * quotes, after a "src" that precedes it, and holds no quote and no newline.
   */
  ghost predicate Quoted(s: string, u: string)
  {
    exists g :: QuotedAt(s, u, g)
  }

  /** `u` is a quoted value of `s` starting at `g`, after a "src". */
  ghost predicate QuotedAt(s: string, u: string, g: nat)
  {
    && (exists p: nat :: p + 3 < g && At(s, "src", p))
    && 1 <= g && g + |u| < |s| && Quote(s[g - 1]) && s[g..g + |u|] == u && Quote(s[g + |u|])
    && forall i :: 0 <= i < |u| ==> !Quote(u[i]) && u[i] != '\n'
  }

  lemma SrcAtSound(s: string, p: nat)
    requires SrcAt(s, p).Some?
    ensures Quoted(s, SrcAt(s, p).value)
  {
    var a := SpaceRunEnd(s, p + 3);
    var b := SpaceRunEnd(s, a + 1);
    var c := ValueEnd(s, b + 1);
    var u := s[b + 1..c];
    assert s[b + 1..b + 1 + |u|] == u;
    forall i | 0 <= i < |u| ensures !Quote(u[i]) && u[i] != '\n' {
      assert u[i] == s[b + 1 + i];
    }
    assert QuotedAt(s, u, b + 1);
  }

  /**
   * The search finds something exactly when the pattern matches somewhere at
   * or after `p`, and what it finds is a quoted value of the handler.
   */
  lemma {:induction false} SearchSrcMeaning(s: string, p: nat)
    ensures SearchSrc(s, p).Some? <==> exists q :: p <= q <= |s| && SrcAt(s, q).Some?
    ensures SearchSrc(s, p).Some? ==> Quoted(s, SearchSrc(s, p).value)
    decreases |s| + 1 - p
  {
    if p <= |s| {
      if SrcAt(s, p).Some? {
        SrcAtSound(s, p);
      } else {
        SearchSrcMeaning(s, p + 1);
        if exists q :: p <= q <= |s| && SrcAt(s, q).Some? {
          var q :| p <= q <= |s| && SrcAt(s, q).Some?;
          assert q != p;
        }
      }
    }
  }

  /** The stream link of one button's "onclick" handler: its src value, when that holds ".m3u8". */
  function ButtonLink(onclick: string): Option<string>
  {
    match SearchSrc(onclick, 0)
    case None => None
    case Some(link) => if Contains(link, ".m3u8") then Some(link) else None
  }

  /** A button's link is a quoted src value of its handler, and holds ".m3u8". */
  lemma ButtonLinkSound(onclick: string)
    ensures ButtonLink(onclick).Some? ==>
      Contains(ButtonLink(onclick).value, ".m3u8") && Quoted(onclick, ButtonLink(onclick).value)
  {
    SearchSrcMeaning(onclick, 0);
  }

  /** The stream links of the buttons, in button order. */
  function ButtonLinks(onclicks: seq<string>): seq<string>
    decreases |onclicks|
  {
    if onclicks == [] then []
    else
      var l := ButtonLink(onclicks[|onclicks| - 1]);
      ButtonLinks(onclicks[..|onclicks| - 1]) + (if l.Some? then [l.value] else [])
  }

  /**
   * Every button link is the quoted src value of one of the handlers and
   * contains ".m3u8"; every handler with such a value contributes its link.
   */
  lemma {:induction false} ButtonLinksMeaning(onclicks: seq<string>)
    ensures forall x :: x in ButtonLinks(onclicks) ==>
      Contains(x, ".m3u8") && exists i :: 0 <= i < |onclicks| && ButtonLink(onclicks[i]) == Some(x) && Quoted(onclicks[i], x)
    ensures forall i :: 0 <= i < |onclicks| && ButtonLink(onclicks[i]).Some? ==>
      ButtonLink(onclicks[i]).value in ButtonLinks(onclicks)
    decreases |onclicks|
  {
    if onclicks != [] {
      var init, last := onclicks[..|onclicks| - 1], onclicks[|onclicks| - 1];
      ButtonLinksMeaning(init);
      forall x | x in ButtonLinks(onclicks)
        ensures Contains(x, ".m3u8") &&
          exists i :: 0 <= i < |onclicks| && ButtonLink(onclicks[i]) == Some(x) && Quoted(onclicks[i], x)
      {
        if x in ButtonLinks(init) {
          var i :| 0 <= i < |init| && ButtonLink(init[i]) == Some(x) && Quoted(init[i], x);
          assert onclicks[i] == init[i];
        } else {
          ButtonLinkSound(last);
          assert ButtonLink(onclicks[|onclicks| - 1]) == Some(x);
        }
      }
      forall i | 0 <= i < |onclicks| && ButtonLink(onclicks[i]).Some?
        ensures ButtonLink(onclicks[i]).value in ButtonLinks(onclicks)
      {
        if i < |init| {
          assert onclicks[i] == init[i];
        }
      }
    }
  }

  /** A handler that yields a stream link. */
  predicate HasLink(onclick: string)
  {
    ButtonLink(onclick).Some?
  }

  /** The j-th button link is the link of the handler at the j-th accepting position. */
  lemma {:induction false} ButtonLinksPick(onclicks: seq<string>)
    ensures var p, ls := Positions(onclicks, HasLink), ButtonLinks(onclicks);
      |p| == |ls| && forall j :: 0 <= j < |p| ==> 0 <= p[j] < |onclicks| && ButtonLink(onclicks[p[j]]) == Some(ls[j])
    decreases |onclicks|
  {
    if onclicks != [] {
      var init := onclicks[..|onclicks| - 1];
      ButtonLinksPick(init);
      assert forall i :: 0 <= i < |init| ==> onclicks[i] == init[i];
    }
  }

  /**
   * The button links follow the buttons' order, one link for each handler
   * that yields one and none for the others.
   */
  lemma ButtonLinksOrder(onclicks: seq<string>)
    ensures var ls := ButtonLinks(onclicks);
      exists idx :: (&& Ascending(idx, |onclicks|) && |idx| == |ls|
        && (forall j :: 0 <= j < |idx| ==> ButtonLink(onclicks[idx[j]]) == Some(ls[j]))
        && (forall i :: 0 <= i < |onclicks| ==> (ButtonLink(onclicks[i]).Some? <==> i in idx)))
  {
    var idx := Positions(onclicks, HasLink);
    PositionsAscending(onclicks, HasLink);
    PositionsMembers(onclicks, HasLink);
    ButtonLinksPick(onclicks);
  }

  /**
   * An event page: the "onclick" handler of each `button[onclick]`, in page
   * order, and the "src" of its `iframe#iframe` ("" when missing) if it has one.
   */
  datatype Page = Page(onclicks: seq<string>, iframe: Option<string>)

  /**
   * `get_m3u8_links`: nothing when the page could not be fetched; otherwise
   * the button links, preceded by the iframe's link cut after the CORS proxy
   * when the iframe's src holds ".m3u8" and is not itself a button link.
   */
  function M3u8Links(page: Option<Page>): seq<string>
  {
    if page.None? then []
    else
      var btn := ButtonLinks(page.value.onclicks);
      match page.value.iframe
      case Some(src) =>
        if Contains(src, ".m3u8") && src !in btn then [SplitLast(src, CorsHost)] + btn else btn
      case None => btn
  }

  /** `get_m3u8_links`: the button loop appends, the iframe link is inserted in front. */
  method GetM3u8Links(page: Option<Page>) returns (links: seq<string>)
    ensures links == M3u8Links(page)
  {
    links := [];
    if page.None? {
      return;
    }
    var onclicks := page.value.onclicks;
    var i := 0;
    while i < |onclicks|
      invariant 0 <= i <= |onclicks|
      invariant links == ButtonLinks(onclicks[..i])
    {
      assert onclicks[..i + 1][..i] == onclicks[..i];
      match SearchSrc(onclicks[i], 0) {
        case Some(link) =>
          if Contains(link, ".m3u8") {
            links := links + [link];
          }
        case None =>
      }
      i := i + 1;
    }
    assert onclicks[..i] == onclicks;
    if page.value.iframe.Some? {
      var src := page.value.iframe.value;
      if Contains(src, ".m3u8") && src !in links {
        links := [SplitLast(src, CorsHost)] + links;
      }
    }
  }

  /**
   * The links of a page are its button links, with at most one link in front:
   * that of an iframe whose src holds ".m3u8" and is not a button link. That
   * link is the end of the src after its last CORS proxy prefix, so it no
   * longer names the proxy.
   */
  lemma M3u8LinksMeaning(page: Option<Page>)
    ensures page.None? ==> M3u8Links(page) == []
    ensures page.Some? ==>
      var btn, r := ButtonLinks(page.value.onclicks), M3u8Links(page);
      && |btn| <= |r| <= |btn| + 1
      && r[|r| - |btn|..] == btn
      && (|r| == |btn| + 1 <==>
            page.value.iframe.Some? && Contains(page.value.iframe.value, ".m3u8") && page.value.iframe.value !in btn)
      && (|r| == |btn| + 1 ==>
            var src := page.value.iframe.value;
            && EndsWith(src, r[0]) && !Contains(r[0], CorsHost)
            && (r[0] == src || EndsWith(src, CorsHost + r[0])))
  {
    if page.Some? && page.value.iframe.Some? {
      SplitLastMeaning(page.value.iframe.value, CorsHost);
    }
  }

  /**
   * Because the membership test looks at the src before the proxy prefix is
   * cut, a page can list the same link twice: once from a button, and once
   * in front from an iframe that serves it through the proxy.
   */
  lemma DuplicateThroughProxy(onclicks: seq<string>, u: string)
    requires u in ButtonLinks(onclicks) && !Contains(u, CorsHost)
    requires "https://" + CorsHost + u !in ButtonLinks(onclicks)
    ensures var r := M3u8Links(Some(Page(onclicks, Some("https://" + CorsHost + u))));
      r[0] == u && u in r[1..]
  {
    var src := "https://" + CorsHost + u;
    var btn := ButtonLinks(onclicks);
    ButtonLinksMeaning(onclicks);
    ContainsAfter("https://" + CorsHost, u, ".m3u8");
    ProxyCut(u);
    assert M3u8Links(Some(Page(onclicks, Some(src)))) == [u] + btn;
  }

  /** Text that contains `sub` still does with anything put in front. */
  lemma ContainsAfter(pre: string, u: string, sub: string)
    requires Contains(u, sub)
    ensures Contains(pre + u, sub)
  {
    ContainsMeaning(u, sub);
    var m: nat :| At(u, sub, m);
    assert (pre + u)[|pre| + m..|pre| + m + |sub|] == u[m..m + |sub|];
    assert At(pre + u, sub, |pre| + m);
    ContainsMeaning(pre + u, sub);
  }

  /** Cutting a link served through the proxy gives the link back. */
  lemma ProxyCut(u: string)
    requires !Contains(u, CorsHost)
    ensures SplitLast("https://" + CorsHost + u, CorsHost) == u
  {
    var pre := "https://";
    var s := pre + CorsHost + u;
    assert At(s, CorsHost, |pre|) by {
      assert s[|pre|..|pre| + |CorsHost|] == CorsHost;
    }
    // the proxy host cannot start inside "https://", which has no 'c'
    forall j | 0 <= j < |pre| ensures !At(s, CorsHost, j) {
      assert s[j] == pre[j];
    }
    IndexOfFirst(s, CorsHost);
    assert IndexOf(s, CorsHost) == Some(|pre|);
    assert s[|pre| + |CorsHost|..] == u;
    assert Split(s, CorsHost) == [s[..|pre|]] + Split(u, CorsHost);
    SplitLastMeaning(u, CorsHost);
  }

  /** One stored entry: `{"url", "logo", "id"}`, the id left empty when the league is unknown. */
  datatype AceEntry = AceEntry(url: string, logo: string, id: Option<string>)

  /** `f"[{sport}] {event} (S{i})"` */
  function LinkKey(it: Item, i: nat): string
  {
    Key(it.sport, it.event, "S" + NatToString(i))
  }

  /** The links of one event are stored under different keys. */
  lemma LinkKeysDistinct(it: Item, i: nat, j: nat)
    requires i != j
    ensures LinkKey(it, i) != LinkKey(it, j)
  {
    var ti, tj := "S" + NatToString(i), "S" + NatToString(j);
    var ki, kj := LinkKey(it, i), LinkKey(it, j);
    if ki == kj {
      var n := |it.sport| + |it.event| + 5;
      assert |ti| == |tj|;
      assert ki[n..n + |ti|] == ti;
      assert kj[n..n + |tj|] == tj;
      assert ti[1..] == NatToString(i) && tj[1..] == NatToString(j);
      NatToStringInjective(i, j);
    }
  }

  /** The assignments made for one event, `urls[key] = entry` for each of its links in order. */
  function ItemPairs(it: Item, links: seq<string>, table: Table): seq<(string, AceEntry)>
  {
    var (tvgId, logo) := Info(table, it.sport);
    seq(|links|, j requires 0 <= j < |links| => (LinkKey(it, j + 1), AceEntry(links[j], logo, tvgId)))
  }

  /** The assignments of each schedule item, from its page's links. */
  function AllPairs(items: seq<Item>, pages: string -> Option<Page>, table: Table): seq<seq<(string, AceEntry)>>
  {
    seq(|items|, k requires 0 <= k < |items| => ItemPairs(items[k], M3u8Links(pages(items[k].href)), table))
  }

  /** The j-th assignment of event k: the key of its (j+1)-th link, that link, and the league's logo and id. */
  lemma PairAt(items: seq<Item>, pages: string -> Option<Page>, table: Table, k: nat, j: nat)
    requires k < |items|
    ensures |AllPairs(items, pages, table)[k]| == |M3u8Links(pages(items[k].href))|
    ensures j < |M3u8Links(pages(items[k].href))| ==>
      AllPairs(items, pages, table)[k][j] ==
        (LinkKey(items[k], j + 1),
         AceEntry(M3u8Links(pages(items[k].href))[j], Info(table, items[k].sport).1, Info(table, items[k].sport).0))
  {
    assert AllPairs(items, pages, table)[k] == ItemPairs(items[k], M3u8Links(pages(items[k].href)), table);
  }

  /** The map after each assignment in turn. */
  function Assign(m: map<string, AceEntry>, ps: seq<(string, AceEntry)>): map<string, AceEntry>
    decreases |ps|
  {
    if ps == [] then m
    else
      var p := ps[|ps| - 1];
      Assign(m, ps[..|ps| - 1])[p.0 := p.1]
  }

  /** After the assignments each key holds the last value assigned to it, or its old value. */
  lemma {:induction false} AssignMeaning(m: map<string, AceEntry>, ps: seq<(string, AceEntry)>)
    ensures forall k :: k in Assign(m, ps) <==> k in m || LastFor(ps, k).Some?
    ensures forall k :: k in Assign(m, ps) ==>
      Assign(m, ps)[k] == if LastFor(ps, k).Some? then LastFor(ps, k).value else m[k]
    decreases |ps|
  {
    if ps != [] {
      AssignMeaning(m, ps[..|ps| - 1]);
    }
  }

  lemma AssignSnoc(m: map<string, AceEntry>, ps: seq<(string, AceEntry)>, p: (string, AceEntry))
    ensures Assign(m, ps + [p]) == Assign(m, ps)[p.0 := p.1]
  {
    assert (ps + [p])[..|ps|] == ps;
  }

  /**
   * What one `scrape` leaves in `urls`: unchanged without a working mirror;
   * otherwise every link of every scheduled event assigned under its key.
   */
  function Run(urls: map<string, AceEntry>, probes: seq<Webwork.Probe>, home: Option<seq<Anchor>>,
               pages: string -> Option<Page>, urljoin: (string, string) -> string, table: Table): map<string, AceEntry>
    requires |probes| == |Mirrors|
  {
    match Webwork.GetBase(Mirrors, probes)
    case None => urls
    case Some(base) => Assign(urls, Concat(AllPairs(Schedule(home, base, urljoin), pages, table)))
  }

  lemma {:induction false} AssignAppend(m: map<string, AceEntry>, a: seq<(string, AceEntry)>, b: seq<(string, AceEntry)>)
    ensures Assign(m, a + b) == Assign(Assign(m, a), b)
    decreases |b|
  {
    if b == [] {
      assert a + b == a;
    } else {
      var b', p := b[..|b| - 1], b[|b| - 1];
      AssignAppend(m, a, b');
      assert a + b == (a + b') + [p];
      AssignSnoc(m, a + b', p);
    }
  }

  /** The inner loop of `scrape`: the links of one event, each under its numbered key. */
  method StoreLinks(urls0: map<string, AceEntry>, item: Item, links: seq<string>, table: Table)
    returns (urls: map<string, AceEntry>)
    ensures urls == Assign(urls0, ItemPairs(item, links, table))
  {
    ghost var ps := ItemPairs(item, links, table);
    urls := urls0;
    var (tvgId, logo) := Info(table, item.sport);
    var j := 0;
    while j < |links|
      invariant 0 <= j <= |links|
      invariant urls == Assign(urls0, ps[..j])
    {
      var p := (LinkKey(item, j + 1), AceEntry(links[j], logo, tvgId));
      assert ps[j] == p;
      assert ps[..j + 1] == ps[..j] + [p];
      AssignSnoc(urls0, ps[..j], p);
      urls := urls[p.0 := p.1];
      j := j + 1;
    }
    assert ps[..j] == ps;
  }

  /**
   * `scrape`. The pages are fetched together before the loop in the source;
   * a page is a pure function of its link here, so fetching each one at its
   * turn gives the same links.
   */
  method Scrape(urls0: map<string, AceEntry>, probes: seq<Webwork.Probe>, home: Option<seq<Anchor>>,
                pages: string -> Option<Page>, urljoin: (string, string) -> string, table: Table)
    returns (urls: map<string, AceEntry>)
    requires |probes| == |Mirrors|
    ensures urls == Run(urls0, probes, home, pages, urljoin, table)
  {
    urls := urls0;
    var base := Webwork.GetBase(Mirrors, probes);
    if base.None? {
      return;
    }
    var schedule := GetSchedule(home, base.value, urljoin);
    ghost var all := AllPairs(schedule, pages, table);
    var k := 0;
    while k < |schedule|
      invariant 0 <= k <= |schedule|
      invariant urls == Assign(urls0, Concat(all[..k]))
    {
      var item := schedule[k];
      var links := GetM3u8Links(pages(item.href));
      assert all[k] == ItemPairs(item, links, table);
      AssignOuterStep(urls0, all, k);
      if |links| == 0 {
        k := k + 1;
        continue;
      }
      urls := StoreLinks(urls, item, links, table);
      k := k + 1;
    }
    assert all[..k] == all;
  }

  /** One outer step of `scrape`: the assignments of event `k` follow those before it. */
  lemma AssignOuterStep(urls0: map<string, AceEntry>, all: seq<seq<(string, AceEntry)>>, k: nat)
    requires k < |all|
    ensures Assign(urls0, Concat(all[..k + 1])) == Assign(Assign(urls0, Concat(all[..k])), all[k])
  {
    ConcatSplitAt(all, k, 0);
    AssignAppend(urls0, Concat(all[..k]), all[k]);
  }

  /** A pair assigned for event `k` appears in the whole run of assignments. */
  lemma PairInRun(all: seq<seq<(string, AceEntry)>>, k: nat, j: nat)
    requires k < |all| && j < |all[k]|
    ensures all[k][j] in Concat(all)
  {
    ConcatSplitAt(all, k, j);
    assert all[k][j..][0] == all[k][j];
  }

  /**
   * With a working mirror, `urls` ends up holding its old keys and the key
   * "[sport] event (Si)" of the i-th link of every scheduled event, counting
   * from 1; an event without links adds nothing. Every key the run assigns
   * holds one of the links of an event with that key, with the event's league
   * logo and id.
   */
  lemma RunStores(urls0: map<string, AceEntry>, probes: seq<Webwork.Probe>, home: Option<seq<Anchor>>,
                  pages: string -> Option<Page>, urljoin: (string, string) -> string, table: Table)
    requires |probes| == |Mirrors|
    ensures Webwork.GetBase(Mirrors, probes).None? ==> Run(urls0, probes, home, pages, urljoin, table) == urls0
    ensures Webwork.GetBase(Mirrors, probes).Some? ==>
      var r := Run(urls0, probes, home, pages, urljoin, table);
      var items := Schedule(home, Webwork.GetBase(Mirrors, probes).value, urljoin);
      && (forall k, i :: 0 <= k < |items| && 1 <= i <= |M3u8Links(pages(items[k].href))| ==>
            LinkKey(items[k], i) in r)
      && (forall key :: key in r && key !in urls0 ==>
            exists k, i :: (0 <= k < |items| && 1 <= i <= |M3u8Links(pages(items[k].href))| &&
              key == LinkKey(items[k], i) &&
              r[key] == AceEntry(M3u8Links(pages(items[k].href))[i - 1], Info(table, items[k].sport).1, Info(table, items[k].sport).0)))
  {
    if Webwork.GetBase(Mirrors, probes).Some? {
      var items := Schedule(home, Webwork.GetBase(Mirrors, probes).value, urljoin);
      forall k, i | 0 <= k < |items| && 1 <= i <= |M3u8Links(pages(items[k].href))|
        ensures LinkKey(items[k], i) in Assign(urls0, Concat(AllPairs(items, pages, table)))
      {
        LinkStored(urls0, items, pages, table, k, i);
      }
      forall key | key in Assign(urls0, Concat(AllPairs(items, pages, table))) && key !in urls0
        ensures exists k, i :: (0 <= k < |items| && 1 <= i <= |M3u8Links(pages(items[k].href))| &&
          key == LinkKey(items[k], i) &&
          Assign(urls0, Concat(AllPairs(items, pages, table)))[key] ==
            AceEntry(M3u8Links(pages(items[k].href))[i - 1], Info(table, items[k].sport).1, Info(table, items[k].sport).0))
      {
        StoredFrom(urls0, items, pages, table, key);
      }
    }
  }

  /** The i-th link of scheduled event k is stored under its key. */
  lemma LinkStored(urls0: map<string, AceEntry>, items: seq<Item>, pages: string -> Option<Page>, table: Table,
                   k: nat, i: nat)
    requires k < |items| && 1 <= i <= |M3u8Links(pages(items[k].href))|
    ensures LinkKey(items[k], i) in Assign(urls0, Concat(AllPairs(items, pages, table)))
  {
    var all := AllPairs(items, pages, table);
    var ps := Concat(all);
    AssignMeaning(urls0, ps);
    PairAt(items, pages, table, k, i - 1);
    PairInRun(all, k, i - 1);
    var n :| 0 <= n < |ps| && ps[n] == all[k][i - 1];
    LastForSome(ps, n);
  }

  /** A key the run adds holds a link of a scheduled event stored under that event's numbered key. */
  lemma StoredFrom(urls0: map<string, AceEntry>, items: seq<Item>, pages: string -> Option<Page>, table: Table,
                   key: string)
    requires key in Assign(urls0, Concat(AllPairs(items, pages, table))) && key !in urls0
    ensures exists k, i :: (0 <= k < |items| && 1 <= i <= |M3u8Links(pages(items[k].href))| &&
      key == LinkKey(items[k], i) &&
      Assign(urls0, Concat(AllPairs(items, pages, table)))[key] ==
        AceEntry(M3u8Links(pages(items[k].href))[i - 1], Info(table, items[k].sport).1, Info(table, items[k].sport).0))
  {
    var all := AllPairs(items, pages, table);
    var ps := Concat(all);
    AssignMeaning(urls0, ps);
    LastForIn(ps, key);
    var n :| 0 <= n < |ps| && ps[n] == (key, LastFor(ps, key).value);
    ConcatMember(all, ps[n]);
    var k :| 0 <= k < |all| && ps[n] in all[k];
    var j :| 0 <= j < |all[k]| && all[k][j] == ps[n];
    PairAt(items, pages, table, k, j);
    assert key == LinkKey(items[k], j + 1);
  }

  /**
   * With a working mirror, a key of `urls` that names no link of any scheduled
   * event keeps its old entry: `urls` persists across runs and is only
   * overwritten key by key.
   */
  lemma RunKeeps(urls0: map<string, AceEntry>, probes: seq<Webwork.Probe>, home: Option<seq<Anchor>>,
                 pages: string -> Option<Page>, urljoin: (string, string) -> string, table: Table, key: string)
    requires |probes| == |Mirrors|
    requires Webwork.GetBase(Mirrors, probes).Some?
    requires key in urls0
    requires var items := Schedule(home, Webwork.GetBase(Mirrors, probes).value, urljoin);
      forall k, i :: 0 <= k < |items| && 1 <= i <= |M3u8Links(pages(items[k].href))| ==> key != LinkKey(items[k], i)
    ensures var r := Run(urls0, probes, home, pages, urljoin, table);
      key in r && r[key] == urls0[key]
  {
    var items := Schedule(home, Webwork.GetBase(Mirrors, probes).value, urljoin);
    var ps := Concat(AllPairs(items, pages, table));
    AssignMeaning(urls0, ps);
    AssignedKey(items, pages, table, key);
  }

  /** A key that some assignment of the run writes is the numbered key of a link of a scheduled event. */
  lemma AssignedKey(items: seq<Item>, pages: string -> Option<Page>, table: Table, key: string)
    ensures LastFor(Concat(AllPairs(items, pages, table)), key).Some? ==>
      exists k, i :: 0 <= k < |items| && 1 <= i <= |M3u8Links(pages(items[k].href))| && key == LinkKey(items[k], i)
  {
    var all := AllPairs(items, pages, table);
    var ps := Concat(all);
    if LastFor(ps, key).Some? {
      LastForIn(ps, key);
      var n :| 0 <= n < |ps| && ps[n] == (key, LastFor(ps, key).value);
      ConcatMember(all, ps[n]);
      var k :| 0 <= k < |all| && ps[n] in all[k];
      var j :| 0 <= j < |all[k]| && all[k][j] == ps[n];
      PairAt(items, pages, table, k, j);
      assert key == LinkKey(items[k], j + 1);
    }
  }
}
