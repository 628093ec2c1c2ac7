/**
 * M3U8/scrapers/tvpass.py: the TVPass adapter. A non-empty cache is used as
 * it is; otherwise the site's M3U playlist is read line by line, and every
 * `#EXTINF` line without a tvg-id whose stream line ends "/sd" becomes an
 * event whose URL is rewritten to the origin server's "mono.m3u8".
 */
module Tvpass {
  import opened Outcomes
  import opened Text
  import opened Config
  import opened Store

  const Tag := "TVP"
  const EntryBase := "https://tvpass.org"
  const Extinf := "#EXTINF"
  const SdSuffix := "/sd"

  /** The stream URL stored for a channel. */
  function StreamUrl(channel: string): (r: string)
    ensures StartsWith(r, "http://origin.thetvapp.to/hls/") && EndsWith(r, "/mono.m3u8")
  {
    "http://origin.thetvapp.to/hls/" + channel + "/mono.m3u8"
  }

  /**
   * `re.search(name + '="([^"]*)"', line)` from position `p`: the value of
   * the leftmost `name="..."` that is closed by a quote.
   */
  function AttrFrom(line: string, name: string, p: nat): (r: Option<string>)
    decreases |line| + 1 - p
  {
    var open := name + "=\"";
    if p > |line| then None
    else if At(line, open, p) && IndexFrom(line, "\"", p + |open|).Some? then
      Some(line[p + |open|..IndexFrom(line, "\"", p + |open|).value])
    else AttrFrom(line, name, p + 1)
  }

  /** The captured value of `name="..."` in a line, if any. */
  function Attr(line: string, name: string): Option<string>
  {
    AttrFrom(line, name, 0)
  }

  /**
   * A found value is what stands between `name="` and the next quote, at the
   * leftmost position where `name="` is followed by a closing quote.
   */
  lemma {:induction false} AttrFromSound(line: string, name: string, p: nat)
    requires AttrFrom(line, name, p).Some?
    ensures exists q :: p <= q && At(line, name + "=\"" + AttrFrom(line, name, p).value + "\"", q)
    ensures forall i :: 0 <= i < |AttrFrom(line, name, p).value| ==> AttrFrom(line, name, p).value[i] != '"'
    decreases |line| + 1 - p
  {
    var open := name + "=\"";
    if At(line, open, p) && IndexFrom(line, "\"", p + |open|).Some? {
      AttrAtSound(line, open, p);
    } else {
      AttrFromSound(line, name, p + 1);
    }
  }

  /** The text between an opening `open` at p and the next quote, closed by that quote. */
  lemma AttrAtSound(line: string, open: string, p: nat)
    requires At(line, open, p) && IndexFrom(line, "\"", p + |open|).Some?
    ensures var u := line[p + |open|..IndexFrom(line, "\"", p + |open|).value];
      At(line, open + u + "\"", p) && forall i :: 0 <= i < |u| ==> u[i] != '"'
  {
    var v := p + |open|;
    var close := IndexFrom(line, "\"", v).value;
    QuoteClosed(line, open, p, close, line[v..close]);
  }

  /** `open`, a quote-free value u and a quote, laid end to end from p. */
  lemma QuoteClosed(line: string, open: string, p: nat, close: nat, u: string)
    requires At(line, open, p) && p + |open| <= close && At(line, "\"", close)
    requires forall j :: p + |open| <= j < close ==> !At(line, "\"", j)
    requires u == line[p + |open|..close]
    ensures At(line, open + u + "\"", p) && forall i :: 0 <= i < |u| ==> u[i] != '"'
  {
    var v := p + |open|;
    assert At(line, u, v);
    AtConcat(line, open, u, p);
    AtConcat(line, open + u, "\"", p);
    forall i | 0 <= i < |u| ensures u[i] != '"' {
      assert !At(line, "\"", v + i);
      assert line[v + i..v + i + 1] == [u[i]];
    }
  }

  /** `"(".join(name.split("(")[:-1])`: the name before its last "(". */
  function DropLastGroup(name: string): string
  {
    var parts := Split(name, "(");
    Join("(", parts[..|parts| - 1])
  }

  /**
   * The event name drops the last "(" and what follows it; a name without
   * "(" gives "".
   */
  lemma DropLastGroupMeaning(name: string)
    ensures !Contains(name, "(") ==> DropLastGroup(name) == ""
    ensures Contains(name, "(") ==>
      name == DropLastGroup(name) + "(" + SplitLast(name, "(") && !Contains(SplitLast(name, "("), "(")
  {
    var parts := Split(name, "(");
    if Contains(name, "(") {
      assert |parts| >= 2;
      JoinSplit(name, "(");
      var init := parts[..|parts| - 1];
      assert parts == init + [parts[|parts| - 1]];
      JoinSnoc("(", init, parts[|parts| - 1]);
      SplitLastMeaning(name, "(");
    }
  }

  /** `url.split("/")[-2]`, for a stream line ending "/sd". */
  function Channel(url: string): string
    requires EndsWith(url, SdSuffix)
  {
    assert url[|url| - 3..|url| - 2] == "/";
    SplitTwo(url, "/", |url| - 3);
    var parts := Split(url, "/");
    parts[|parts| - 2]
  }

  /** The part after the last "/" of a line ending "/sd" is "sd". */
  lemma LastPartSd(url: string, pre: string, b: string)
    requires url == pre + "/" + b && !Contains(b, "/") && EndsWith(url, SdSuffix)
    ensures b == "sd"
  {
    var n := |url|;
    assert url[n - 3..] == "/sd";
    assert url[|pre|] == '/';
    assert forall j :: n - 2 <= j < n ==> url[j] != '/';
    assert |b| >= 2;
    ContainsMeaning(b, "/");
    if |b| > 2 {
      assert b[|b| - 3..|b| - 2] == url[n - 3..n - 2];
      assert At(b, "/", |b| - 3);
    }
    assert b == url[n - 2..];
  }

  /** Parts joined, written with their last two parts. */
  lemma JoinLastTwo(sep: string, parts: seq<string>) returns (pre: string)
    requires |parts| >= 2
    ensures Join(sep, parts) == pre + parts[|parts| - 2] + sep + parts[|parts| - 1]
    ensures pre == [] || EndsWith(pre, sep)
  {
    var k := |parts|;
    var a, b := parts[k - 2], parts[k - 1];
    var init := parts[..k - 1];
    assert parts == init + [b];
    JoinSnoc(sep, init, b);
    if k == 2 {
      assert init == [a];
      pre := [];
    } else {
      var init2 := parts[..k - 2];
      assert init == init2 + [a];
      JoinSnoc(sep, init2, a);
      pre := Join(sep, init2) + sep;
      assert pre[|pre| - |sep|..] == sep;
    }
  }

  /**
   * The channel is the segment just before the final "/sd": it holds no "/",
   * and it is the start of the line or follows a "/".
   */
  lemma ChannelMeaning(url: string)
    requires EndsWith(url, SdSuffix)
    ensures !Contains(Channel(url), "/") && EndsWith(url, Channel(url) + SdSuffix)
    ensures url == Channel(url) + SdSuffix || EndsWith(url, "/" + Channel(url) + SdSuffix)
  {
    var pre := ChannelParts(url);
    var parts := Split(url, "/");
    var k := |parts|;
    var a, b := parts[k - 2], parts[k - 1];
    assert Channel(url) == a;
    assert url == (pre + a) + "/" + b;
    LastPartSd(url, pre + a, b);
    assert url == pre + a + SdSuffix;
    SuffixShape(url, pre, a);
  }

  /** A line ending "/sd", written with the last two pieces of its split on "/". */
  lemma ChannelParts(url: string) returns (pre: string)
    requires EndsWith(url, SdSuffix)
    ensures var parts := Split(url, "/");
      && |parts| >= 2 && url == pre + parts[|parts| - 2] + "/" + parts[|parts| - 1]
      && (pre == [] || EndsWith(pre, "/"))
      && !Contains(parts[|parts| - 2], "/") && !Contains(parts[|parts| - 1], "/")
  {
    assert url[|url| - 3..|url| - 2] == "/";
    SplitTwo(url, "/", |url| - 3);
    var parts := Split(url, "/");
    SplitPiecesFree(url, "/");
    JoinSplit(url, "/");
    pre := JoinLastTwo("/", parts);
  }

  lemma SuffixShape(url: string, pre: string, a: string)
    requires url == pre + a + SdSuffix && (pre == [] || EndsWith(pre, "/"))
    ensures EndsWith(url, a + SdSuffix)
    ensures url == a + SdSuffix || EndsWith(url, "/" + a + SdSuffix)
  {
    AppendEnds(pre, a + SdSuffix, a + SdSuffix);
    if pre != [] {
      var pre' := pre[..|pre| - 1];
      assert pre == pre' + "/";
      assert url == pre' + ("/" + a + SdSuffix);
      AppendEnds(pre', "/" + a + SdSuffix, "/" + a + SdSuffix);
    }
  }

  lemma AppendEnds(pre: string, s: string, t: string)
    requires EndsWith(s, t)
    ensures EndsWith(pre + s, s) && EndsWith(pre + s, t)
  {
    assert (pre + s)[|pre + s| - |s|..] == s;
    assert (pre + s)[|pre + s| - |t|..] == s[|s| - |t|..];
  }

  /**
   * One line of the playlist, at index `i`: lines other than `#EXTINF`, and
   * those with a non-empty tvg-id, are skipped; otherwise the next line is
   * read (`IndexError` on the last line); it must end "/sd"; a missing
   * tvg-name raises `TypeError`, an empty one skips, and then a missing
   * group-title raises `TypeError`.
   */
  function LineResult(lines: seq<string>, i: nat, table: Table, now: int): Result<Option<Attempt>>
    requires i < |lines|
  {
    var line := lines[i];
    var tvg := Attr(line, "tvg-id");
    if !StartsWith(line, Extinf) || (tvg.Some? && tvg.value != "") then Ok(None)
    else if i + 1 >= |lines| then Err(IndexError)
    else if !EndsWith(lines[i + 1], SdSuffix) then Ok(None)
    else
      match Attr(line, "tvg-name")
      case None => Err(TypeError)
      case Some(name) =>
        if name == "" then Ok(None)
        else
          match Attr(line, "group-title")
          case None => Err(TypeError)
          case Some(group) =>
            var sport := Strip(Upper(group));
            var event := Strip(DropLastGroup(name));
            var (tvgId, logo) := Info(table, sport);
            Ok(Some(Attempt(Key(sport, event, Tag),
                            Entry(StreamUrl(Channel(lines[i + 1])), logo, EntryBase, now, IdOr(tvgId), None))))
  }

  function LineResults(lines: seq<string>, table: Table, now: int): seq<Result<Option<Attempt>>>
  {
    seq(|lines|, i requires 0 <= i < |lines| => LineResult(lines, i, table, now))
  }

  /** The conditions under which a line yields an event. */
  predicate Yields(lines: seq<string>, i: nat)
    requires i < |lines|
  {
    var line := lines[i];
    var tvg := Attr(line, "tvg-id");
    && StartsWith(line, Extinf) && (tvg.None? || tvg.value == "")
    && i + 1 < |lines| && EndsWith(lines[i + 1], SdSuffix)
    && Attr(line, "tvg-name").Some? && Attr(line, "tvg-name").value != ""
  }

  /**
   * A line yields an entry exactly when it is an `#EXTINF` line without a
   * tvg-id, the next line ends "/sd", its tvg-name is non-empty and it has a
   * group-title; the entry's sport, event, URL, base and time are as stated.
   * It raises exactly on an `#EXTINF` line without a tvg-id that is the last
   * line, or whose next line ends "/sd" and which lacks a tvg-name, or has a
   * non-empty one but no group-title.
   */
  lemma LineResultMeaning(lines: seq<string>, i: nat, table: Table, now: int)
    requires i < |lines|
    ensures var r := LineResult(lines, i, table, now);
      (r.Ok? && r.value.Some?) <==> Yields(lines, i) && Attr(lines[i], "group-title").Some?
    ensures var r := LineResult(lines, i, table, now);
      var line := lines[i];
      var tvg := Attr(line, "tvg-id");
      r.Err? <==> (StartsWith(line, Extinf) && (tvg.None? || tvg.value == "") &&
        (i + 1 == |lines| ||
         (EndsWith(lines[i + 1], SdSuffix) &&
          (Attr(line, "tvg-name").None? ||
           (Attr(line, "tvg-name").value != "" && Attr(line, "group-title").None?)))))
    ensures var r := LineResult(lines, i, table, now);
      r.Ok? && r.value.Some? ==>
        var a := r.value.value;
        var sport := Strip(Upper(Attr(lines[i], "group-title").value));
        var event := Strip(DropLastGroup(Attr(lines[i], "tvg-name").value));
        && a.key == Key(sport, event, Tag)
        && a.entry.url == StreamUrl(Channel(lines[i + 1])) && IsLive(a.entry)
        && a.entry.base == EntryBase && a.entry.timestamp == now
        && a.entry.id == IdOr(Info(table, sport).0) && a.entry.logo == Info(table, sport).1
  {
  }

  /**
   * What one `scrape` leaves behind, as (cache written, live map). A
   * non-empty cache becomes the live map and nothing is written; so does an
   * empty playlist (a failed fetch reads as one); otherwise each line's entry
   * is assigned in turn, a later one overwriting an earlier one with the
   * same key, and the live map is written back as the cache.
   */
  function Run(cached: map<string, Entry>, lines: seq<string>, table: Table, now: int)
    : Result<(Option<map<string, Entry>>, map<string, Entry>)>
  {
    if cached != map[] then Ok((None, cached))
    else if lines == [] then Ok((None, map[]))
    else
      match Keep(LineResults(lines, table, now))
      case Err(e) => Err(e)
      case Ok(atts) => Ok((Some(Overlay(map[], atts, true)), Overlay(map[], atts, true)))
  }

  method ProcessLine(lines: seq<string>, i: nat, table: Table, now: int) returns (out: Result<Option<Attempt>>)
    requires i < |lines|
    ensures out == LineResult(lines, i, table, now)
    ensures out.Ok? && out.value.Some? ==> IsLive(out.value.value.entry)
  {
    var line := lines[i];
    if !StartsWith(line, Extinf) {
      return Ok(None);
    }
    var tvg := Attr(line, "tvg-id");
    if tvg.Some? && tvg.value != "" {
      return Ok(None);
    }
    if i + 1 >= |lines| {
      return Err(IndexError);
    }
    var url := lines[i + 1];
    if !EndsWith(url, SdSuffix) {
      return Ok(None);
    }
    var name := Attr(line, "tvg-name");
    if name.None? {
      return Err(TypeError);
    }
    if name.value == "" {
      return Ok(None);
    }
    var group := Attr(line, "group-title");
    if group.None? {
      return Err(TypeError);
    }
    var sport := Strip(Upper(group.value));
    var event := Strip(DropLastGroup(name.value));
    var info := Info(table, sport);
    var entry := Entry(StreamUrl(Channel(url)), info.1, EntryBase, now, IdOr(info.0), None);
    out := Ok(Some(Attempt(Key(sport, event, Tag), entry)));
  }

  /** `scrape`: the indexed loop over the playlist's lines. */
  method Scrape(cached: map<string, Entry>, lines: seq<string>, table: Table, now: int)
    returns (r: Result<(Option<map<string, Entry>>, map<string, Entry>)>)
    ensures r == Run(cached, lines, table, now)
  {
    if cached != map[] {
      return Ok((None, cached));
    }
    if lines == [] {
      return Ok((None, map[]));
    }
    var outs := LineResults(lines, table, now);
    var urls: map<string, Entry> := map[];
    var done: seq<Attempt> := [];
    assert Overlay(map[], done, true) == map[];
    var i := 0;
    while i < |lines|
      invariant 0 <= i <= |lines|
      invariant Keep(outs[..i]) == Ok(done)
      invariant urls == Overlay(map[], done, true)
    {
      KeepStep(outs, i);
      var out := ProcessLine(lines, i, table, now);
      assert out == outs[i];
      match out {
        case Err(e) =>
          KeepErrPersists(outs, i + 1, |outs|);
          assert outs[..|outs|] == outs;
          return Err(e);
        case Ok(None) =>
        case Ok(Some(a)) =>
          assert (done + [a])[..|done|] == done;
          OverlayStep(map[], done + [a], true);
          urls := urls[a.key := a.entry];
          done := done + [a];
      }
      i := i + 1;
    }
    assert outs[..i] == outs;
    r := Ok((Some(urls), urls));
  }

  /**
   * After a run over a non-empty playlist with an empty cache, the cache
   * written is the live map; each key is that of a yielding line and holds
   * the entry of the last line with that key; every entry has the rewritten
   * origin URL, the TVPass base and the run's time.
   */
  lemma RunStores(lines: seq<string>, table: Table, now: int)
    requires lines != [] && Run(map[], lines, table, now).Ok?
    ensures var (written, live) := Run(map[], lines, table, now).value;
      var atts := Keep(LineResults(lines, table, now)).value;
      && written == Some(live)
      && (forall k :: k in live ==> Latest(atts, k, true) == Some(live[k]))
      && forall k :: k in live ==>
           && live[k].base == EntryBase && live[k].timestamp == now
           && exists i :: 0 <= i < |lines| - 1 && Yields(lines, i) &&
                live[k].url == StreamUrl(Channel(lines[i + 1]))
  {
    var outs := LineResults(lines, table, now);
    var atts := Keep(outs).value;
    var P := (a: Attempt) => a.entry.base == EntryBase && a.entry.timestamp == now &&
      exists i :: 0 <= i < |lines| - 1 && Yields(lines, i) && a.entry.url == StreamUrl(Channel(lines[i + 1]));
    forall i | 0 <= i < |outs| && outs[i].Ok? && outs[i].value.Some? ensures P(outs[i].value.value) {
      LineResultMeaning(lines, i, table, now);
    }
    KeepAll(outs, P);
    var live := Overlay(map[], atts, true);
    forall k | k in live ensures P(Attempt(k, live[k])) {
      LatestIn(atts, k, true);
      var i :| 0 <= i < |atts| && atts[i].key == k && atts[i].entry == Latest(atts, k, true).value;
      assert atts[i] in atts;
    }
  }
}
