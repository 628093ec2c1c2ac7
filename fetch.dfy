/**
 * M3U8/fetch.py: the aggregator. It reads the highest channel number of the
 * base playlist, merges the adapters' live maps, numbers the merged channels
 * in key order and renders the two playlists (base + events, and events only).
 */
module Fetch {
  import opened Outcomes
  import opened Text
  import opened Store
  import Webwork

  /** The literal start of the pattern `tvg-chno="(\d+)"`. */
  const ChnoPrefix := "tvg-chno=\""

  /** The index just past the run of ASCII digits starting at `k`. */
  function DigitRunEnd(s: string, k: nat): (r: nat)
    requires k <= |s|
    ensures k <= r <= |s|
    ensures forall i :: k <= i < r ==> IsDigit(s[i])
    ensures r < |s| ==> !IsDigit(s[r])
    decreases |s| - k
  {
    if k < |s| && IsDigit(s[k]) then DigitRunEnd(s, k + 1) else k
  }

  /**
   * A match of `tvg-chno="(\d+)"` at `p`: the number and the index just past
   * the closing quote. The greedy digit run must be followed by the quote.
   */
  function ChnoAt(s: string, p: nat): (r: Option<(nat, nat)>)
    requires p <= |s|
    ensures r.Some? ==> p < r.value.1 <= |s| && s[p] == 't'
    ensures r.Some? ==> forall q :: p < q < r.value.1 ==> s[q] != 't'
  {
    if !At(s, ChnoPrefix, p) then None
    else
      var d := p + |ChnoPrefix|;
      var e := DigitRunEnd(s, d);
      if d < e < |s| && s[e] == '"' then
        assert forall q :: p < q < d ==> s[q] == ChnoPrefix[q - p];
        Some((DigitsValue(s[d..e]), e + 1))
      else None
  }

  /** `pattern.findall(data[pos..])` read as numbers: the matches, left to right, without overlap. */
  function ChnoNumbers(s: string, pos: nat): (ns: seq<nat>)
    requires pos <= |s|
    decreases |s| - pos
  {
    if pos == |s| then []
    else
      match ChnoAt(s, pos)
      case Some((v, e)) => [v] + ChnoNumbers(s, e)
      case None => ChnoNumbers(s, pos + 1)
  }

  /** Every number found is the number of some match at or after `pos`. */
  lemma {:induction false} ChnoSound(s: string, pos: nat)
    requires pos <= |s|
    ensures forall v :: v in ChnoNumbers(s, pos) ==>
      exists p :: pos <= p <= |s| && ChnoAt(s, p).Some? && ChnoAt(s, p).value.0 == v
    decreases |s| - pos
  {
    if pos < |s| {
      match ChnoAt(s, pos)
      case Some((v, e)) => ChnoSound(s, e);
      case None => ChnoSound(s, pos + 1);
    }
  }

  /**
   * Every match is found: matches cannot overlap, since only the first
   * character of a match is a 't'.
   */
  lemma {:induction false} ChnoComplete(s: string, pos: nat, p: nat)
    requires pos <= p <= |s|
    requires ChnoAt(s, p).Some?
    ensures ChnoAt(s, p).value.0 in ChnoNumbers(s, pos)
    decreases |s| - pos
  {
    if pos < p {
      match ChnoAt(s, pos)
      case Some((v, e)) =>
        assert s[p] == 't';
        assert e <= p;
        ChnoComplete(s, e, p);
      case None => ChnoComplete(s, pos + 1, p);
    } else {
      assert pos < |s|;
    }
  }

  /** `max(numbers, default=0)` */
  function MaxOr0(ns: seq<nat>): (r: nat)
    ensures forall i :: 0 <= i < |ns| ==> ns[i] <= r
    ensures ns == [] ==> r == 0
    ensures ns != [] ==> r in ns
    decreases |ns|
  {
    if ns == [] then 0
    else
      var m := MaxOr0(ns[1..]);
      if ns[1..] == [] || ns[0] >= m then ns[0] else m
  }

  /** `str.splitlines()`'s line boundaries. */
  predicate IsLineBreak(c: char)
  {
    c == '\n' || c == '\r' || c == '\U{0B}' || c == '\U{0C}' || ('\U{1C}' <= c <= '\U{1E}') ||
    c == '\U{85}' || c == '\U{2028}' || c == '\U{2029}'
  }

  function LineEnd(s: string, k: nat): (r: nat)
    requires k <= |s|
    ensures k <= r <= |s|
    ensures forall i :: k <= i < r ==> !IsLineBreak(s[i])
    ensures r < |s| ==> IsLineBreak(s[r])
    decreases |s| - k
  {
    if k == |s| || IsLineBreak(s[k]) then k else LineEnd(s, k + 1)
  }

  /**
   * `data.splitlines()`: the lines without their terminators, "\r\n" counting as
   * one terminator and a final terminator not starting an empty line.
   */
  function SplitLines(s: string): (lines: seq<string>)
    ensures forall i, j :: 0 <= i < |lines| && 0 <= j < |lines[i]| ==> !IsLineBreak(lines[i][j])
    ensures s == [] <==> lines == []
    decreases |s|
  {
    if s == [] then []
    else
      var e := LineEnd(s, 0);
      if e == |s| then [s]
      else
        var w := if s[e] == '\r' && e + 1 < |s| && s[e + 1] == '\n' then 2 else 1;
        [s[..e]] + SplitLines(s[e + w..])
  }

  /**
   * `load_base`: the lines of the base playlist and its highest channel number:
   * 0 when no `tvg-chno="<digits>"` occurs, otherwise the largest such number.
   */
  function LoadBase(data: string): (r: (seq<string>, nat))
    ensures r.0 == SplitLines(data)
    ensures forall p :: 0 <= p <= |data| && ChnoAt(data, p).Some? ==> ChnoAt(data, p).value.0 <= r.1
    ensures (forall p :: 0 <= p <= |data| ==> ChnoAt(data, p).None?) ==> r.1 == 0
    ensures r.1 != 0 ==> exists p :: 0 <= p <= |data| && ChnoAt(data, p).Some? && ChnoAt(data, p).value.0 == r.1
  {
    var ns := ChnoNumbers(data, 0);
    ChnoSound(data, 0);
    AllChnoFound(data);
    (SplitLines(data), MaxOr0(ns))
  }

  lemma AllChnoFound(data: string)
    ensures forall p :: 0 <= p <= |data| && ChnoAt(data, p).Some? ==> ChnoAt(data, p).value.0 in ChnoNumbers(data, 0)
  {
    forall p | 0 <= p <= |data| && ChnoAt(data, p).Some?
      ensures ChnoAt(data, p).value.0 in ChnoNumbers(data, 0)
    {
      ChnoComplete(data, 0, p);
    }
  }

  /**
   * `fstv.urls | lotus.urls | ... | watchfooty.urls`: the maps merged left to
   * right, a later map overriding an earlier one on a shared key.
   */
  function MergeAll(maps: seq<map<string, Entry>>): (r: map<string, Entry>)
    decreases |maps|
  {
    if maps == [] then map[] else MergeAll(maps[..|maps| - 1]) + maps[|maps| - 1]
  }

  /** The merged keys are the union of the adapters' keys. */
  lemma {:induction false} MergeAllKeys(maps: seq<map<string, Entry>>)
    ensures forall k :: k in MergeAll(maps) <==> exists i :: 0 <= i < |maps| && k in maps[i]
    decreases |maps|
  {
    if maps != [] {
      var n := |maps|;
      var init := maps[..n - 1];
      MergeAllKeys(init);
      assert MergeAll(maps) == MergeAll(init) + maps[n - 1];
      forall k ensures k in MergeAll(maps) <==> exists i :: 0 <= i < n && k in maps[i] {
        if k in MergeAll(init) {
          var i :| 0 <= i < |init| && k in init[i];
          assert init[i] == maps[i];
        }
        if exists i :: 0 <= i < n && k in maps[i] {
          var i :| 0 <= i < n && k in maps[i];
          if i < n - 1 {
            assert init[i] == maps[i];
          }
        }
      }
    }
  }

  /** A key present in several maps takes its value from the last of them. */
  lemma {:induction false} MergeAllValue(maps: seq<map<string, Entry>>, k: string)
    requires k in MergeAll(maps)
    ensures exists i :: (0 <= i < |maps| && k in maps[i] && MergeAll(maps)[k] == maps[i][k] &&
      forall j :: i < j < |maps| ==> k !in maps[j])
    decreases |maps|
  {
    var n := |maps|;
    var init := maps[..n - 1];
    assert MergeAll(maps) == MergeAll(init) + maps[n - 1];
    if k in maps[n - 1] {
      assert MergeAll(maps)[k] == maps[n - 1][k];
    } else {
      MergeAllValue(init, k);
      var i :| 0 <= i < |init| && k in init[i] && MergeAll(init)[k] == init[i][k] &&
        forall j :: i < j < |init| ==> k !in init[j];
      assert init[i] == maps[i];
      forall j | i < j < n ensures k !in maps[j] {
        if j < n - 1 {
          assert init[j] == maps[j];
        }
      }
    }
  }

  /** Python's `<` on `str`: code point by code point, a proper prefix first. */
  predicate Below(a: string, b: string)
    decreases |a|
  {
    if a == [] then b != []
    else if b == [] then false
    else if a[0] != b[0] then a[0] < b[0]
    else Below(a[1..], b[1..])
  }

  lemma {:induction false} BelowIrreflexive(a: string)
    ensures !Below(a, a)
    decreases |a|
  {
    if a != [] {
      BelowIrreflexive(a[1..]);
    }
  }

  lemma {:induction false} BelowTransitive(a: string, b: string, c: string)
    requires Below(a, b) && Below(b, c)
    ensures Below(a, c)
    decreases |a|
  {
    if a != [] && b != [] && c != [] && a[0] == b[0] && b[0] == c[0] {
      BelowTransitive(a[1..], b[1..], c[1..]);
    }
  }

  lemma {:induction false} BelowTotal(a: string, b: string)
    requires a != b
    ensures Below(a, b) || Below(b, a)
    decreases |a|
  {
    if a != [] && b != [] && a[0] == b[0] {
      assert a == [a[0]] + a[1..] && b == [b[0]] + b[1..];
      BelowTotal(a[1..], b[1..]);
    }
  }

  lemma BelowAsymmetric(a: string, b: string)
    requires Below(a, b)
    ensures !Below(b, a)
  {
    if Below(b, a) {
      BelowTransitive(a, b, a);
      BelowIrreflexive(a);
    }
  }

  /** Strictly ascending in Python's string order, hence also without duplicates. */
  predicate StrictlySorted(ks: seq<string>)
  {
    forall i, j :: 0 <= i < j < |ks| ==> Below(ks[i], ks[j])
  }

  /** Insert a new key into an ascending sequence of keys. */
  function Insert(ks: seq<string>, k: string): (r: seq<string>)
    requires StrictlySorted(ks) && k !in ks
    ensures StrictlySorted(r)
    ensures forall x :: x in r <==> x in ks || x == k
    decreases |ks|
  {
    if ks == [] then [k]
    else if Below(k, ks[0]) then
      assert forall j :: 0 <= j < |ks| ==> Below(k, ks[j]) by {
        forall j | 0 < j < |ks| ensures Below(k, ks[j]) {
          BelowTransitive(k, ks[0], ks[j]);
        }
      }
      [k] + ks
    else
      BelowTotal(k, ks[0]);
      var rest := Insert(ks[1..], k);
      assert forall x :: x in rest ==> Below(ks[0], x);
      [ks[0]] + rest
  }

  lemma NoMemberEmpty(s: seq<string>)
    ensures (forall x :: x !in s) ==> s == []
  {
    if s != [] {
      assert s[0] in s;
    }
  }

  /** Two ascending enumerations of the same keys are the same sequence. */
  lemma {:induction false} SortedUnique(a: seq<string>, b: seq<string>)
    requires StrictlySorted(a) && StrictlySorted(b)
    requires forall x :: x in a <==> x in b
    ensures a == b
    decreases |a|
  {
    if a == [] || b == [] {
      NoMemberEmpty(a);
      NoMemberEmpty(b);
    } else {
      assert a[0] in a && b[0] in b;
      if a[0] != b[0] {
        var i :| 0 <= i < |b| && b[i] == a[0];
        var j :| 0 <= j < |a| && a[j] == b[0];
        BelowAsymmetric(b[0], b[i]);
        assert false;
      }
      forall x ensures x in a[1..] <==> x in b[1..] {
        if x in a[1..] {
          var j :| 1 <= j < |a| && a[j] == x;
          assert Below(a[0], x);
          BelowIrreflexive(x);
          assert x in b;
        }
        if x in b[1..] {
          var j :| 1 <= j < |b| && b[j] == x;
          assert Below(b[0], x);
          BelowIrreflexive(x);
          assert x in a;
        }
      }
      SortedUnique(a[1..], b[1..]);
    }
  }

  /** The ascending enumeration of a set of keys, as `sorted` produces it. */
  ghost function SortedOf(s: set<string>): (ks: seq<string>)
    ensures StrictlySorted(ks)
    ensures forall x :: x in ks <==> x in s
    decreases s
  {
    if s == {} then []
    else
      var x :| x in s;
      Insert(SortedOf(s - {x}), x)
  }

  /** `sorted(additions)`: the keys in ascending order. */
  method SortKeys(keys: set<string>) returns (ks: seq<string>)
    ensures ks == SortedOf(keys)
  {
    ks := [];
    var rest := keys;
    while rest != {}
      invariant rest <= keys
      invariant StrictlySorted(ks)
      invariant forall x :: x in ks <==> x in keys && x !in rest
      decreases rest
    {
      var k :| k in rest;
      ks := Insert(ks, k);
      rest := rest - {k};
    }
    SortedUnique(ks, SortedOf(keys));
  }

  /** The `#EXTINF` line of one channel. */
  function Extinf(chno: int, name: string, e: Entry): string
  {
    "#EXTINF:-1 tvg-chno=\"" + IntToString(chno) + "\" tvg-id=\"" + e.id + "\" tvg-name=\"" + name +
    "\" tvg-logo=\"" + e.logo + "\" group-title=\"Live Events\"," + name
  }

  /** The tag line that opens a channel's block. */
  function TagLine(chno: int, name: string, e: Entry): string
  {
    "\n" + Extinf(chno, name, e)
  }

  /** The VLC options that follow the tag line: referrer, origin, user agent, then the stream URL. */
  function VlcBlock(e: Entry): (lines: seq<string>)
    ensures |lines| == 4 && lines[3] == e.url
  {
    ["#EXTVLCOPT:http-referrer=" + e.base,
     "#EXTVLCOPT:http-origin=" + e.base,
     "#EXTVLCOPT:http-user-agent=" + Webwork.UA,
     e.url]
  }

  /** The five lines of one channel: tag line, referrer, origin, user agent, stream URL. */
  function Block(chno: int, name: string, e: Entry): (lines: seq<string>)
    ensures |lines| == 5
  {
    [TagLine(chno, name, e)] + VlcBlock(e)
  }

  /** The blocks of the keys `ks`, the i-th (from 0) numbered `offset + i + 1`. */
  function BlockList(ks: seq<string>, m: map<string, Entry>, offset: int): (bs: seq<seq<string>>)
    requires forall k :: k in ks ==> k in m
    ensures |bs| == |ks| && forall i :: 0 <= i < |bs| ==> |bs[i]| == 5
  {
    seq(|ks|, i requires 0 <= i < |ks| => Block(offset + i + 1, ks[i], m[ks[i]]))
  }

  /** The lines of the channel blocks of the keys `ks`, in order. */
  function Blocks(ks: seq<string>, m: map<string, Entry>, offset: int): (lines: seq<string>)
    requires forall k :: k in ks ==> k in m
    ensures |lines| == 5 * |ks|
  {
    ChunksLength(BlockList(ks, m, offset), 5);
    Concat(BlockList(ks, m, offset))
  }

  /** Each channel contributes exactly five lines, and channel i sits at lines 5i..5i+4. */
  lemma BlocksLayout(ks: seq<string>, m: map<string, Entry>, offset: int)
    requires forall k :: k in ks ==> k in m
    ensures |Blocks(ks, m, offset)| == 5 * |ks|
    ensures forall i :: 0 <= i < |ks| ==>
      Blocks(ks, m, offset)[5 * i..5 * i + 5] == Block(offset + i + 1, ks[i], m[ks[i]])
  {
    forall i | 0 <= i < |ks|
      ensures Blocks(ks, m, offset)[5 * i..5 * i + 5] == Block(offset + i + 1, ks[i], m[ks[i]])
    {
      BlockChunk(ks, m, offset, i);
    }
  }

  /** Channel i of the blocks, lines 5i..5i+4. */
  lemma BlockChunk(ks: seq<string>, m: map<string, Entry>, offset: int, i: nat)
    requires forall k :: k in ks ==> k in m
    requires i < |ks|
    ensures Blocks(ks, m, offset)[5 * i..5 * i + 5] == Block(offset + i + 1, ks[i], m[ks[i]])
  {
    var bs := BlockList(ks, m, offset);
    var b := Block(offset + i + 1, ks[i], m[ks[i]]);
    assert bs[i] == b;
    ChunkIs(bs, 5, i, b);
  }

  /** Line j of the blocks is line j % 5 of channel j / 5. */
  lemma BlocksAt(ks: seq<string>, m: map<string, Entry>, offset: int, j: nat)
    requires forall k :: k in ks ==> k in m
    requires j < 5 * |ks|
    ensures Blocks(ks, m, offset)[j] == Block(offset + j / 5 + 1, ks[j / 5], m[ks[j / 5]])[j % 5]
  {
    var i, r := j / 5, j % 5;
    assert j == 5 * i + r && 0 <= r < 5;
    var bs := BlockList(ks, m, offset);
    ChunkItem(bs, 5, i, r);
    assert bs[i] == Block(offset + i + 1, ks[i], m[ks[i]]);
  }

  /**
   * The live and the combined blocks of the same channels differ only in their
   * tag lines, and those only in the channel number.
   */
  lemma LiveMatchesCombined(ks: seq<string>, m: map<string, Entry>, base: int, j: nat)
    requires forall k :: k in ks ==> k in m
    requires j < 5 * |ks|
    ensures j % 5 != 0 ==> Blocks(ks, m, 0)[j] == Blocks(ks, m, base)[j]
    ensures j % 5 == 0 ==>
      Blocks(ks, m, 0)[j] == TagLine(j / 5 + 1, ks[j / 5], m[ks[j / 5]]) &&
      Blocks(ks, m, base)[j] == TagLine(base + j / 5 + 1, ks[j / 5], m[ks[j / 5]])
  {
    BlocksAt(ks, m, 0, j);
    BlocksAt(ks, m, base, j);
  }

  /** Appending one key appends its block. */
  lemma BlocksSnoc(ks: seq<string>, m: map<string, Entry>, offset: int, i: nat)
    requires i < |ks| && forall k :: k in ks ==> k in m
    ensures Blocks(ks[..i + 1], m, offset) == Blocks(ks[..i], m, offset) + Block(offset + i + 1, ks[i], m[ks[i]])
  {
    var bs := BlockList(ks, m, offset);
    assert BlockList(ks[..i + 1], m, offset) == bs[..i + 1];
    assert BlockList(ks[..i], m, offset) == bs[..i];
    ConcatSplitAt(bs, i, 0);
  }

  /** The header line of the events-only playlist. */
  const EventsHeader := "#EXTM3U url-tvg=\"https://github.com/BuddyChewChew/iptv/raw/refs/heads/main/EPG/TV.xml\""

  /** The text of TV.m3u8 and of events.m3u8 for a base playlist and the adapters' maps. */
  ghost function Playlists(baseText: string, maps: seq<map<string, Entry>>): (texts: (string, string))
  {
    var (lines, chno) := LoadBase(baseText);
    var m := MergeAll(maps);
    var ks := SortedOf(m.Keys);
    (Join("\n", lines + Blocks(ks, m, chno)), EventsHeader + "\n" + Join("\n", Blocks(ks, m, 0)))
  }

  /**
   * The loop of `main`: for the i-th key (from 1) extend the combined list with
   * its block numbered `tvgChno + i` and the live list with the same block
   * numbered i.
   */
  method ExtendChannels(keys: seq<string>, additions: map<string, Entry>, tvgChno: int)
    returns (channels: seq<string>, live: seq<string>)
    requires forall k :: k in keys ==> k in additions
    ensures channels == Blocks(keys, additions, tvgChno)
    ensures live == Blocks(keys, additions, 0)
  {
    channels, live := [], [];
    var i := 0;
    while i < |keys|
      invariant 0 <= i <= |keys|
      invariant channels == Blocks(keys[..i], additions, tvgChno)
      invariant live == Blocks(keys[..i], additions, 0)
    {
      var event := keys[i];
      var info := additions[event];
      var vlcBlock := VlcBlock(info);
      BlocksSnoc(keys, additions, tvgChno, i);
      BlocksSnoc(keys, additions, 0, i);
      channels := channels + ([TagLine(tvgChno + i + 1, event, info)] + vlcBlock);
      live := live + ([TagLine(i + 1, event, info)] + vlcBlock);
      i := i + 1;
    }
    assert keys[..i] == keys;
  }

  /**
   * The body of `main` after the adapters have run: merge, sort, number and
   * render. The combined playlist is the base lines unchanged followed by the
   * blocks numbered on from the base's highest number; the events playlist is
   * the header and the same blocks numbered from 1.
   */
  method BuildPlaylists(baseText: string, maps: seq<map<string, Entry>>)
    returns (keys: seq<string>, combined: seq<string>, live: seq<string>, combinedText: string, eventsText: string)
    ensures var m := MergeAll(maps);
      && StrictlySorted(keys) && (forall k :: k in keys <==> k in m)
      && combined == LoadBase(baseText).0 + Blocks(keys, m, LoadBase(baseText).1)
      && live == Blocks(keys, m, 0)
    ensures (combinedText, eventsText) == Playlists(baseText, maps)
  {
    var loaded := LoadBase(baseText);
    var additions := MergeAll(maps);
    keys := SortKeys(additions.Keys);
    var channels;
    channels, live := ExtendChannels(keys, additions, loaded.1);
    combined := loaded.0 + channels;
    combinedText := Join("\n", combined);
    eventsText := EventsHeader + "\n" + Join("\n", live);
  }

  /**
   * Channel i (from 0) of the combined playlist is numbered `top + i + 1` and of
   * the events playlist `i + 1`: consecutive, without gaps or repeats.
   */
  lemma ChannelNumbers(ks: seq<string>, m: map<string, Entry>, top: int, i: nat)
    requires forall k :: k in ks ==> k in m
    requires i < |ks|
    ensures Blocks(ks, m, top)[5 * i] == TagLine(top + i + 1, ks[i], m[ks[i]])
    ensures Blocks(ks, m, 0)[5 * i] == TagLine(i + 1, ks[i], m[ks[i]])
  {
    var j := 5 * i;
    assert j / 5 == i && j % 5 == 0;
    BlocksAt(ks, m, top, j);
    BlocksAt(ks, m, 0, j);
    assert Block(top + i + 1, ks[i], m[ks[i]])[0] == TagLine(top + i + 1, ks[i], m[ks[i]]);
    assert Block(i + 1, ks[i], m[ks[i]])[0] == TagLine(i + 1, ks[i], m[ks[i]]);
  }

  /** Every channel number added to the combined playlist exceeds every number of the base. */
  lemma NumbersAboveBase(baseText: string, i: nat, p: nat)
    requires p <= |baseText| && ChnoAt(baseText, p).Some?
    ensures LoadBase(baseText).1 + i + 1 > ChnoAt(baseText, p).value.0
  {
  }

  /** The outcome of one adapter's `scrape`: its live map, or the exception it let escape. */
  type Run = Result<map<string, Entry>>

  /**
   * The exception `main` re-raises, taken as the earliest failed run in list
   * order. `asyncio.gather` re-raises the failure that happens first in time,
   * which depends on scheduling; the model fixes list order, so which of
   * several exceptions surfaces is not modelled, only that one does.
   */
  function FirstFailure(runs: seq<Run>): (r: Option<Exc>)
    ensures r.None? <==> forall i :: 0 <= i < |runs| ==> runs[i].Ok?
    decreases |runs|
  {
    if runs == [] then None
    else if runs[0].Err? then Some(runs[0].error)
    else FirstFailure(runs[1..])
  }

  /**
   * `main` as written: `asyncio.gather` without `return_exceptions` re-raises
   * the first adapter exception, so neither playlist is written; otherwise the
   * playlists are built from all live maps.
   */
  ghost function MainAsWritten(baseText: string, runs: seq<Run>): (r: Result<(string, string)>)
    ensures r.Err? <==> exists i :: 0 <= i < |runs| && runs[i].Err?
  {
    match FirstFailure(runs)
    case Some(e) => Err(e)
    case None => Ok(Playlists(baseText, seq(|runs|, i requires 0 <= i < |runs| => runs[i].value)))
  }

  /** The live map an adapter contributes when its failures are contained: nothing, if it raised. */
  function Contribution(run: Run): map<string, Entry>
  {
    if run.Ok? then run.value else map[]
  }

  /**
   * `main` with each adapter's failure contained: the playlists are always
   * written, from the live maps of the adapters that finished.
   */
  ghost function MainIsolated(baseText: string, runs: seq<Run>): (texts: (string, string))
  {
    Playlists(baseText, seq(|runs|, i requires 0 <= i < |runs| => Contribution(runs[i])))
  }

  /**
   * With failures contained, one adapter raising removes only its own channels:
   * the channels are exactly the keys of the adapters that finished.
   */
  lemma IsolatedKeepsOthers(runs: seq<Run>)
    ensures var maps := seq(|runs|, i requires 0 <= i < |runs| => Contribution(runs[i]));
      forall k :: k in MergeAll(maps) <==> exists i :: 0 <= i < |runs| && runs[i].Ok? && k in runs[i].value
  {
    var maps := seq(|runs|, i requires 0 <= i < |runs| => Contribution(runs[i]));
    MergeAllKeys(maps);
    forall k ensures k in MergeAll(maps) <==> exists i :: 0 <= i < |runs| && runs[i].Ok? && k in runs[i].value {
      if k in MergeAll(maps) {
        var i :| 0 <= i < |maps| && k in maps[i];
        assert runs[i].Ok?;
      }
      if exists i :: 0 <= i < |runs| && runs[i].Ok? && k in runs[i].value {
        var i :| 0 <= i < |runs| && runs[i].Ok? && k in runs[i].value;
        assert k in maps[i];
      }
    }
  }

  /** As written, a single raising adapter loses every playlist. */
  lemma OneFailureAbortsAll(baseText: string, runs: seq<Run>, i: nat)
    requires i < |runs| && runs[i].Err?
    ensures MainAsWritten(baseText, runs).Err?
  {
  }
}
