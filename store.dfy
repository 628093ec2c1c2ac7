/**
 * What every adapter's `scrape` shares: the stored entry, the channel key
 * `"[sport] name (TAG)"`, the time-window test, and the two ways an adapter
 * folds its resolution attempts into the cache map (`cached_urls`, written
 * back to disk) and the live map (the module's `urls`, read by fetch.py).
 */
module Store {
  import opened Outcomes
  import opened Config

  /**
   * One stored event: `{"url", "logo", "base", "timestamp", "id"}`, plus the
   * fstv page link "href". A missing URL (`None`) is stored as "" here: both
   * are falsy, and nothing reads the difference.
   */
  datatype Entry = Entry(url: string, logo: string, base: string, timestamp: int, id: string, href: Option<string>)

  /** The tvg id every adapter uses when the league table has none. */
  const FallbackId := "Live.Event.us"

  /** `tvg_id or "Live.Event.us"` */
  function IdOr(tvgId: Option<string>): (r: string)
    ensures r != ""
    ensures tvgId.Some? && tvgId.value != "" ==> r == tvgId.value
    ensures tvgId.None? || tvgId.value == "" ==> r == FallbackId
  {
    if tvgId.Some? && tvgId.value != "" then tvgId.value else FallbackId
  }

  /** A resolved URL as stored: `None` becomes "". */
  function UrlText(u: Option<string>): (r: string)
    ensures u.Some? ==> r == u.value
    ensures u.None? ==> r == ""
  {
    if u.Some? then u.value else ""
  }

  /** `if url:` / `if v["url"]`: the entry carries a usable stream URL. */
  predicate IsLive(e: Entry)
  {
    e.url != ""
  }

  /** The channel key `f"[{sport}] {name} ({tag})"`. */
  function Key(sport: string, name: string, tag: string): (r: string)
    ensures |r| == |sport| + |name| + |tag| + 6
    ensures r[0] == '[' && r[|r| - 1] == ')'
  {
    "[" + sport + "] " + name + " (" + tag + ")"
  }

  /** The key ends in `" (tag)"`. */
  predicate HasTag(k: string, tag: string)
  {
    |k| >= |tag| + 3 && k[|k| - |tag| - 3..] == " (" + tag + ")"
  }

  lemma KeyTag(sport: string, name: string, tag: string)
    ensures HasTag(Key(sport, name, tag), tag)
  {
    var k := Key(sport, name, tag);
    assert k == ("[" + sport + "] " + name) + (" (" + tag + ")");
  }

  /**
   * A key ends in at most one tag without "(": two such tags of one key are
   * equal, so keys with different tags never collide.
   */
  lemma TagUnique(k: string, t1: string, t2: string)
    requires HasTag(k, t1) && HasTag(k, t2)
    requires '(' !in t1 && '(' !in t2
    ensures t1 == t2
  {
    ParenInLonger(k, t1, t2);
    ParenInLonger(k, t2, t1);
    var w1, w2 := " (" + t1 + ")", " (" + t2 + ")";
    assert w1 == w2;
    assert t1 == w1[2..|w1| - 1];
    assert t2 == w2[2..|w2| - 1];
  }

  /** Of two tags of one key, the longer holds the "(" that opens the shorter. */
  lemma ParenInLonger(k: string, t1: string, t2: string)
    requires HasTag(k, t1) && HasTag(k, t2)
    ensures |t1| < |t2| ==> '(' in t2
  {
    var n := |k|;
    if |t1| < |t2| {
      var i := |t2| - |t1| - 1;
      assert k[n - |t1| - 3..][1] == (" (" + t1 + ")")[1];
      assert k[n - |t2| - 3..][i + 2] == (" (" + t2 + ")")[i + 2];
      assert t2[i] in t2;
    }
  }

  /** Of two sports that open one key, the longer holds the "]" that closes the shorter. */
  lemma BracketInLonger(k: string, sport: string, sport': string)
    requires |sport| + 2 <= |k| && k[..|sport| + 2] == "[" + sport + "]"
    requires |sport'| + 2 <= |k| && k[..|sport'| + 2] == "[" + sport' + "]"
    ensures |sport| < |sport'| ==> ']' in sport'
  {
    if |sport| < |sport'| {
      var i := |sport|;
      assert k[..|sport| + 2][i + 1] == ("[" + sport + "]")[i + 1];
      assert k[..|sport'| + 2][i + 1] == ("[" + sport' + "]")[i + 1];
      assert sport'[i] in sport';
    }
  }

  /** A key opens with its sport in brackets, so two keys agree on a sport without "]". */
  lemma KeySport(k: string, sport: string, sport': string)
    requires |sport| + 2 <= |k| && k[..|sport| + 2] == "[" + sport + "]" && ']' !in sport
    requires |sport'| + 2 <= |k| && k[..|sport'| + 2] == "[" + sport' + "]" && ']' !in sport'
    ensures sport == sport'
  {
    BracketInLonger(k, sport, sport');
    BracketInLonger(k, sport', sport);
    var w := "[" + sport + "]";
    assert sport == w[1..|w| - 1];
    assert sport' == ("[" + sport' + "]")[1..|w| - 1];
  }

  /** `lo <= t <= hi` around a reference time: the inclusive window test. */
  predicate Within(t: int, now: int, before: int, after: int)
  {
    now - before <= t <= now + after
  }

  /**
   * Tombstone adapters (watchfooty, livetvsx) record every attempt in the
   * cache, even one without a URL, so that it is not retried while cached;
   * all others record an event only when its URL was found.
   */
  datatype Policy = Tombstone | DropOnFailure

  /** One event after resolution: its key and the entry built for it. */
  datatype Attempt = Attempt(key: string, entry: Entry)

  /**
   * The live map a run starts from: under tombstoning only the cached entries
   * with a URL (`{k: v for k, v in cached_urls.items() if v["url"]}`), otherwise
   * the whole cache (which then only ever holds entries with a URL).
   */
  function Seed(policy: Policy, cached: map<string, Entry>): (live: map<string, Entry>)
    ensures live.Keys <= cached.Keys
    ensures forall k :: k in live ==> live[k] == cached[k]
    ensures policy.Tombstone? ==> forall k :: k in cached ==> (k in live <==> IsLive(cached[k]))
    ensures policy.DropOnFailure? ==> live == cached
  {
    if policy.Tombstone? then map k | k in cached && IsLive(cached[k]) :: cached[k] else cached
  }

  /** `cached_urls[key] = entry` and `urls[key] = entry`, as the policy allows. */
  function Record(policy: Policy, cache: map<string, Entry>, live: map<string, Entry>, a: Attempt)
    : (maps: (map<string, Entry>, map<string, Entry>))
  {
    match policy
    case Tombstone =>
      (cache[a.key := a.entry], if IsLive(a.entry) then live[a.key := a.entry] else live)
    case DropOnFailure =>
      if IsLive(a.entry) then (cache[a.key := a.entry], live[a.key := a.entry]) else (cache, live)
  }

  /** The maps after recording `atts` in order. */
  function RecordAll(policy: Policy, cache: map<string, Entry>, live: map<string, Entry>, atts: seq<Attempt>)
    : (maps: (map<string, Entry>, map<string, Entry>))
    decreases |atts|
  {
    if atts == [] then (cache, live)
    else
      var prev := RecordAll(policy, cache, live, atts[..|atts| - 1]);
      Record(policy, prev.0, prev.1, atts[|atts| - 1])
  }

  /** Whether an attempt is written under the given selection. */
  predicate Counts(a: Attempt, onlyLive: bool)
  {
    !onlyLive || IsLive(a.entry)
  }

  /** The entry of the last attempt for key `k` that the selection writes. */
  function Latest(atts: seq<Attempt>, k: string, onlyLive: bool): (r: Option<Entry>)
    ensures r.Some? ==> Counts(Attempt(k, r.value), onlyLive)
    decreases |atts|
  {
    if atts == [] then None
    else
      var a := atts[|atts| - 1];
      if a.key == k && Counts(a, onlyLive) then Some(a.entry)
      else Latest(atts[..|atts| - 1], k, onlyLive)
  }

  /** The keys the selected attempts write. */
  function SelectedKeys(atts: seq<Attempt>, onlyLive: bool): (ks: set<string>)
    ensures forall k :: k in ks <==> Latest(atts, k, onlyLive).Some?
    decreases |atts|
  {
    if atts == [] then {}
    else
      var a := atts[|atts| - 1];
      SelectedKeys(atts[..|atts| - 1], onlyLive) + (if Counts(a, onlyLive) then {a.key} else {})
  }

  /**
   * The independent description of a recording run: the map `m` overridden,
   * key by key, by the last selected attempt for that key.
   */
  function Overlay(m: map<string, Entry>, atts: seq<Attempt>, onlyLive: bool): map<string, Entry>
  {
    map k | k in m.Keys + SelectedKeys(atts, onlyLive) ::
      if Latest(atts, k, onlyLive).Some? then Latest(atts, k, onlyLive).value else m[k]
  }

  /** Appending one attempt to a recording run overrides its key iff the selection writes it. */
  lemma OverlayStep(m: map<string, Entry>, atts: seq<Attempt>, onlyLive: bool)
    requires atts != []
    ensures var init, a := atts[..|atts| - 1], atts[|atts| - 1];
      Overlay(m, atts, onlyLive) ==
        if Counts(a, onlyLive) then Overlay(m, init, onlyLive)[a.key := a.entry] else Overlay(m, init, onlyLive)
  {
    if Counts(atts[|atts| - 1], onlyLive) {
      OverlayStepWritten(m, atts, onlyLive);
    } else {
      OverlayStepSkipped(m, atts, onlyLive);
    }
  }

  lemma OverlayStepWritten(m: map<string, Entry>, atts: seq<Attempt>, onlyLive: bool)
    requires atts != [] && Counts(atts[|atts| - 1], onlyLive)
    ensures var init, a := atts[..|atts| - 1], atts[|atts| - 1];
      Overlay(m, atts, onlyLive) == Overlay(m, init, onlyLive)[a.key := a.entry]
  {
    var init, a := atts[..|atts| - 1], atts[|atts| - 1];
    var o, o' := Overlay(m, atts, onlyLive), Overlay(m, init, onlyLive);
    assert SelectedKeys(atts, onlyLive) == SelectedKeys(init, onlyLive) + {a.key};
    var expected := o'[a.key := a.entry];
    assert o.Keys == expected.Keys;
    forall k | k in o
      ensures o[k] == expected[k]
    {
      if k != a.key {
        assert Latest(atts, k, onlyLive) == Latest(init, k, onlyLive);
      }
    }
  }

  lemma OverlayStepSkipped(m: map<string, Entry>, atts: seq<Attempt>, onlyLive: bool)
    requires atts != [] && !Counts(atts[|atts| - 1], onlyLive)
    ensures Overlay(m, atts, onlyLive) == Overlay(m, atts[..|atts| - 1], onlyLive)
  {
    var init := atts[..|atts| - 1];
    var o, o' := Overlay(m, atts, onlyLive), Overlay(m, init, onlyLive);
    assert SelectedKeys(atts, onlyLive) == SelectedKeys(init, onlyLive);
    assert o.Keys == o'.Keys;
    forall k | k in o
      ensures o[k] == o'[k]
    {
      assert Latest(atts, k, onlyLive) == Latest(init, k, onlyLive);
    }
  }

  /**
   * The fold and its description agree: under tombstoning the cache takes every
   * attempt and the live map only those with a URL; when dropping failures both
   * maps take only the attempts with a URL. In both, the last attempt for a key wins.
   */
  lemma {:induction false} RecordAllIsOverlay(policy: Policy, cache: map<string, Entry>, live: map<string, Entry>, atts: seq<Attempt>)
    ensures RecordAll(policy, cache, live, atts) ==
      (Overlay(cache, atts, policy.DropOnFailure?), Overlay(live, atts, true))
    decreases |atts|
  {
    if atts == [] {
      assert Overlay(cache, atts, policy.DropOnFailure?) == cache;
      assert Overlay(live, atts, true) == live;
    } else {
      var init := atts[..|atts| - 1];
      RecordAllIsOverlay(policy, cache, live, init);
      OverlayStep(cache, atts, policy.DropOnFailure?);
      OverlayStep(live, atts, true);
    }
  }

  /** Only entries with a URL ever enter the live map. */
  lemma RecordAllLive(policy: Policy, cache: map<string, Entry>, live: map<string, Entry>, atts: seq<Attempt>)
    requires forall k :: k in live ==> IsLive(live[k])
    ensures var l := RecordAll(policy, cache, live, atts).1;
      forall k :: k in l ==> IsLive(l[k])
  {
    RecordAllIsOverlay(policy, cache, live, atts);
  }

  /** The keys selected from a run, as a set comprehension over its positions. */
  lemma {:induction false} SelectedKeysMeaning(atts: seq<Attempt>, onlyLive: bool)
    ensures SelectedKeys(atts, onlyLive) == set i | 0 <= i < |atts| && Counts(atts[i], onlyLive) :: atts[i].key
    decreases |atts|
  {
    if atts != [] {
      var init, a := atts[..|atts| - 1], atts[|atts| - 1];
      SelectedKeysMeaning(init, onlyLive);
      var lhs := SelectedKeys(atts, onlyLive);
      var rhs := set i | 0 <= i < |atts| && Counts(atts[i], onlyLive) :: atts[i].key;
      forall k | k in rhs ensures k in lhs {
        var i :| 0 <= i < |atts| && Counts(atts[i], onlyLive) && atts[i].key == k;
        if i < |init| {
          assert init[i] == atts[i];
        }
      }
      forall k | k in lhs ensures k in rhs {
        if k in SelectedKeys(init, onlyLive) {
          var i :| 0 <= i < |init| && Counts(init[i], onlyLive) && init[i].key == k;
          assert atts[i] == init[i];
        } else {
          assert atts[|atts| - 1].key == k;
        }
      }
    }
  }

  /**
   * Under tombstoning the cache gains the key of every attempt and the live map
   * the key of every attempt with a URL, and neither loses a key.
   */
  lemma RecordAllTombstoneKeys(cache: map<string, Entry>, live: map<string, Entry>, atts: seq<Attempt>)
    ensures var (c, l) := RecordAll(Tombstone, cache, live, atts);
      && c.Keys == cache.Keys + (set i | 0 <= i < |atts| :: atts[i].key)
      && l.Keys == live.Keys + (set i | 0 <= i < |atts| && IsLive(atts[i].entry) :: atts[i].key)
  {
    RecordAllIsOverlay(Tombstone, cache, live, atts);
    AllSelected(atts);
    LiveSelected(atts);
  }

  /** Without the URL filter every attempt's key is selected. */
  lemma AllSelected(atts: seq<Attempt>)
    ensures SelectedKeys(atts, false) == set i | 0 <= i < |atts| :: atts[i].key
  {
    SelectedKeysMeaning(atts, false);
    assert (set i | 0 <= i < |atts| && Counts(atts[i], false) :: atts[i].key) == (set i | 0 <= i < |atts| :: atts[i].key);
  }

  /** With the URL filter the keys of the attempts with a URL are selected. */
  lemma LiveSelected(atts: seq<Attempt>)
    ensures SelectedKeys(atts, true) == set i | 0 <= i < |atts| && IsLive(atts[i].entry) :: atts[i].key
  {
    SelectedKeysMeaning(atts, true);
    assert (set i | 0 <= i < |atts| && Counts(atts[i], true) :: atts[i].key) ==
      (set i | 0 <= i < |atts| && IsLive(atts[i].entry) :: atts[i].key);
  }

  /**
   * When dropping failures from a run seeded with the whole cache, the cache
   * written back and the live map are the same map.
   */
  lemma RecordAllDropSame(cached: map<string, Entry>, atts: seq<Attempt>)
    ensures var (c, l) := RecordAll(DropOnFailure, cached, Seed(DropOnFailure, cached), atts); c == l
  {
    RecordAllIsOverlay(DropOnFailure, cached, cached, atts);
  }

  /** The number of attempts that produced a URL (`valid_count` growth). */
  function CountLive(atts: seq<Attempt>): (n: nat)
    ensures n <= |atts|
    ensures n == 0 <==> forall i :: 0 <= i < |atts| ==> !IsLive(atts[i].entry)
    decreases |atts|
  {
    if atts == [] then 0
    else CountLive(atts[..|atts| - 1]) + (if IsLive(atts[|atts| - 1].entry) then 1 else 0)
  }

  /**
   * The final maps of a scrape loop: the attempts are made in order, the first
   * exception aborts the loop, and the survivors are recorded.
   */
  function Outcome(policy: Policy, cache: map<string, Entry>, live: map<string, Entry>,
                   outs: seq<Result<Option<Attempt>>>): Result<(map<string, Entry>, map<string, Entry>)>
  {
    match Keep(outs)
    case Err(e) => Err(e)
    case Ok(atts) => Ok(RecordAll(policy, cache, live, atts))
  }

  /**
   * The loop of every `scrape`: for each event in turn, take its attempt (or
   * skip it, or stop at its exception) and assign it into the maps. `valid` is
   * the number of attempts that produced a URL.
   */
  method RecordAttempts(policy: Policy, cache0: map<string, Entry>, live0: map<string, Entry>,
                        outs: seq<Result<Option<Attempt>>>)
    returns (r: Result<(map<string, Entry>, map<string, Entry>)>, valid: nat)
    ensures r == Outcome(policy, cache0, live0, outs)
    ensures r.Ok? ==> valid == CountLive(Keep(outs).value)
  {
    var cache, live := cache0, live0;
    var done: seq<Attempt> := [];
    valid := 0;
    var i := 0;
    while i < |outs|
      invariant 0 <= i <= |outs|
      invariant Keep(outs[..i]) == Ok(done)
      invariant (cache, live) == RecordAll(policy, cache0, live0, done)
      invariant valid == CountLive(done)
    {
      KeepStep(outs, i);
      match outs[i] {
        case Err(e) =>
          KeepErrPersists(outs, i + 1, |outs|);
          assert outs[..|outs|] == outs;
        return Err(e), valid;
        case Ok(None) =>
        case Ok(Some(a)) =>
          assert (done + [a])[..|done|] == done;
          if policy.Tombstone? || IsLive(a.entry) {
            cache := cache[a.key := a.entry];
          }
          if IsLive(a.entry) {
            live := live[a.key := a.entry];
            valid := valid + 1;
          }
          done := done + [a];
      }
      i := i + 1;
    }
    assert outs[..i] == outs;
    r := Ok((cache, live));
  }

  /**
   * The step every drop-on-failure `scrape` takes for one resolved event:
   * nothing when no URL was found; otherwise the league lookup, which may
   * raise, and the entry preferring the event's own poster to the league logo.
   */
  function Found(key: string, url: Option<string>, lookup: Result<(Option<string>, string)>, poster: Option<string>,
                 base: string, ts: int, href: Option<string>): (r: Result<Option<Attempt>>)
    ensures url.None? || url.value == "" ==> r == Ok(None)
    ensures url.Some? && url.value != "" ==> (r.Err? <==> lookup.Err?) && (r.Ok? ==> r.value.Some?)
    ensures r.Ok? && r.value.Some? ==>
      var a := r.value.value;
      && a.key == key && IsLive(a.entry) && url == Some(a.entry.url)
      && a.entry.base == base && a.entry.timestamp == ts && a.entry.href == href
      && a.entry.id == IdOr(lookup.value.0)
      && a.entry.logo == (if poster.Some? && poster.value != "" then poster.value else lookup.value.1)
  {
    if url.None? || url.value == "" then Ok(None)
    else
      match lookup
      case Err(e) => Err(e)
      case Ok((tvgId, pic)) =>
        var logo := if poster.Some? && poster.value != "" then poster.value else pic;
        Ok(Some(Attempt(key, Entry(url.value, logo, base, ts, IdOr(tvgId), href))))
  }

  /** The keys of the attempts that found a URL. */
  function LiveKeys(atts: seq<Attempt>): set<string>
  {
    set i | 0 <= i < |atts| && IsLive(atts[i].entry) :: atts[i].key
  }

  /**
   * Dropping failures from a run seeded with the whole cache, the cache and
   * the live map end up equal, holding the cache plus the keys that found a
   * URL; `len(cached_urls) - cached_count` is the number of those keys that were
   * not cached before.
   */
  lemma DropGrowth(cached: map<string, Entry>, atts: seq<Attempt>)
    ensures var (c, l) := RecordAll(DropOnFailure, cached, cached, atts);
      && c == l
      && c.Keys == cached.Keys + LiveKeys(atts)
      && |c| - |cached| == |LiveKeys(atts) - cached.Keys|
  {
    var c := RecordAll(DropOnFailure, cached, cached, atts).0;
    RecordAllDropSame(cached, atts);
    DropKeys(cached, atts);
    UnionSize(cached.Keys, LiveKeys(atts));
    assert |c.Keys| == |c| && |cached.Keys| == |cached|;
  }

  lemma DropKeys(cached: map<string, Entry>, atts: seq<Attempt>)
    ensures RecordAll(DropOnFailure, cached, cached, atts).0.Keys == cached.Keys + LiveKeys(atts)
  {
    RecordAllIsOverlay(DropOnFailure, cached, cached, atts);
    SelectedKeysMeaning(atts, true);
    assert SelectedKeys(atts, true) == LiveKeys(atts);
  }

  lemma UnionSize(a: set<string>, b: set<string>)
    ensures |a + b| - |a| == |b - a|
  {
    assert a + b == a + (b - a);
    assert a * (b - a) == {};
  }

  /** The entry chosen for a key is that of one of the attempts for it. */
  lemma {:induction false} LatestIn(atts: seq<Attempt>, k: string, onlyLive: bool)
    requires Latest(atts, k, onlyLive).Some?
    ensures exists i :: 0 <= i < |atts| && atts[i].key == k && atts[i].entry == Latest(atts, k, onlyLive).value
    decreases |atts|
  {
    var init, a := atts[..|atts| - 1], atts[|atts| - 1];
    if !(a.key == k && Counts(a, onlyLive)) {
      LatestIn(init, k, onlyLive);
      var i :| 0 <= i < |init| && init[i].key == k && init[i].entry == Latest(init, k, onlyLive).value;
      assert atts[i] == init[i];
    }
  }

  /** A property every attempt has, every entry the overlay adds has too. */
  lemma OverlayNew(m: map<string, Entry>, atts: seq<Attempt>, onlyLive: bool, P: Attempt -> bool)
    requires forall a :: a in atts ==> P(a)
    ensures var o := Overlay(m, atts, onlyLive);
      forall k :: k in o && k !in m ==> P(Attempt(k, o[k]))
  {
    var o := Overlay(m, atts, onlyLive);
    forall k | k in o && k !in m ensures P(Attempt(k, o[k])) {
      LatestIn(atts, k, onlyLive);
      var i :| 0 <= i < |atts| && atts[i].key == k && atts[i].entry == Latest(atts, k, onlyLive).value;
      assert atts[i] in atts;
    }
  }
}
