/**
 * M3U8/scrapers/utils/config.py: the minute rounding of `Time.clean` and the
 * league/EPG lookup table `Leagues` (its `leagues.json` given as an ordered
 * value, so that "the first match" is well defined).
 */
module Config {
  import opened Outcomes
  import opened Text

  /** `Time.clean`: the timestamp with seconds and microseconds zeroed, i.e. floored to the minute. */
  function Clean(t: int): (r: int)
    ensures r % 60 == 0 && r <= t < r + 60
  {
    t - t % 60
  }

  /** `Leagues.live_img`: the logo used whenever no league logo is known. */
  const LiveImg := "https://i.gyazo.com/978f2eb4a199ca5b56b447aded0cb9e3.png"

  /** One league object of `leagues.json`: its optional "logo" and its "names" (default `[]`). */
  datatype LeagueData = LeagueData(logo: Option<string>, names: seq<string>)

  /**
   * One tvg id of the "leagues" object with its list of league entries; each
   * entry is an object from league name to league data, in file order.
   */
  datatype TvgGroup = TvgGroup(tvgId: string, entries: seq<seq<(string, LeagueData)>>)

  /** The contents of `leagues.json`: the "leagues" table and the "teams" lists. */
  datatype Table = Table(leagues: seq<TvgGroup>, teams: map<string, seq<string>>)

  /** One row the generator in `Leagues.info` looks at. */
  datatype Candidate = Candidate(tvgId: string, leagueName: string, data: LeagueData)

  /** `Leagues.teams`: the team list of a league, empty for an unknown league. */
  function Teams(t: Table, league: string): seq<string>
  {
    if league in t.teams then t.teams[league] else []
  }

  function EntryCandidates(tvgId: string, entry: seq<(string, LeagueData)>): seq<Candidate>
  {
    seq(|entry|, i requires 0 <= i < |entry| => Candidate(tvgId, entry[i].0, entry[i].1))
  }

  function GroupCandidates(tvgId: string, entries: seq<seq<(string, LeagueData)>>): seq<Candidate>
  {
    if entries == [] then []
    else EntryCandidates(tvgId, entries[0]) + GroupCandidates(tvgId, entries[1..])
  }

  /** The rows of the table in the order the nested generator visits them. */
  function Candidates(groups: seq<TvgGroup>): seq<Candidate>
  {
    if groups == [] then []
    else GroupCandidates(groups[0].tvgId, groups[0].entries) + Candidates(groups[1..])
  }

  /** `name == league_name or name in league_data.get("names", [])` */
  predicate Matches(c: Candidate, name: string)
  {
    name == c.leagueName || name in c.data.names
  }

  /** The index of the first row matching `name`, searching from `k`. */
  function FirstMatch(cs: seq<Candidate>, name: string, k: nat): (r: Option<nat>)
    requires k <= |cs|
    ensures r.Some? ==> k <= r.value < |cs| && Matches(cs[r.value], name)
    ensures r.Some? ==> forall j :: k <= j < r.value ==> !Matches(cs[j], name)
    ensures r.None? ==> forall j :: k <= j < |cs| ==> !Matches(cs[j], name)
    decreases |cs| - k
  {
    if k == |cs| then None
    else if Matches(cs[k], name) then Some(k)
    else FirstMatch(cs, name, k + 1)
  }

  /** `logo or live_img` */
  function LogoOr(logo: Option<string>): string
  {
    if logo.Some? && logo.value != "" then logo.value else LiveImg
  }

  /**
   * `Leagues.info`: the tvg id and logo of the first row whose league name is the
   * upper-cased `name` or lists it among its names; a miss gives no id. The logo
   * is never missing: a row without one, and a miss, both give `LiveImg`.
   */
  function Info(t: Table, name: string): (r: (Option<string>, string))
    ensures var cs, n := Candidates(t.leagues), Upper(name);
      && (r.0.None? <==> forall j :: 0 <= j < |cs| ==> !Matches(cs[j], n))
      && (r.0.None? ==> r.1 == LiveImg)
      && (r.0.Some? ==> exists i :: (0 <= i < |cs| && Matches(cs[i], n) &&
            (forall j :: 0 <= j < i ==> !Matches(cs[j], n)) &&
            r.0.value == cs[i].tvgId && r.1 == LogoOr(cs[i].data.logo)))
    ensures r.1 != ""
  {
    var cs := Candidates(t.leagues);
    match FirstMatch(cs, Upper(name), 0)
    case Some(i) => (Some(cs[i].tvgId), LogoOr(cs[i].data.logo))
    case None => (None, LiveImg)
  }

  /** The index just past the run of whitespace starting at `k`. */
  function SpaceRunEnd(s: string, k: nat): (r: nat)
    requires k <= |s|
    ensures k <= r <= |s|
    ensures forall i :: k <= i < r ==> IsSpace(s[i])
    ensures r < |s| ==> !IsSpace(s[r])
    decreases |s| - k
  {
    if k < |s| && IsSpace(s[k]) then SpaceRunEnd(s, k + 1) else k
  }

  /**
   * The end of the keyword part `(?:-|vs\.?|at)` of the separator at `q`, when
   * whitespace follows it (the regex's alternatives in their order).
   */
  function KeywordEnd(s: string, q: nat): (r: Option<nat>)
    ensures r.Some? ==> q < r.value < |s| && IsSpace(s[r.value])
  {
    if q + 1 < |s| && s[q] == '-' && IsSpace(s[q + 1]) then Some(q + 1)
    else if q + 3 < |s| && LowerChar(s[q]) == 'v' && LowerChar(s[q + 1]) == 's' &&
      s[q + 2] == '.' && IsSpace(s[q + 3]) then Some(q + 3)
    else if q + 2 < |s| && LowerChar(s[q]) == 'v' && LowerChar(s[q + 1]) == 's' &&
      IsSpace(s[q + 2]) then Some(q + 2)
    else if q + 2 < |s| && LowerChar(s[q]) == 'a' && LowerChar(s[q + 1]) == 't' &&
      IsSpace(s[q + 2]) then Some(q + 2)
    else None
  }

  /**
   * The end of a match of `\s+(?:-|vs\.?|at)\s+` (IGNORECASE) that starts at `p`,
   * if one does: whitespace, a keyword, and all the whitespace after it.
   */
  function SepEnd(s: string, p: nat): (r: Option<nat>)
    requires p <= |s|
    ensures r.Some? ==> p < r.value <= |s| && IsSpace(s[p]) && IsSpace(s[r.value - 1])
    ensures r.Some? ==> r.value == |s| || !IsSpace(s[r.value])
  {
    if p == |s| || !IsSpace(s[p]) then None
    else
      match KeywordEnd(s, SpaceRunEnd(s, p))
      case None => None
      case Some(e) => Some(SpaceRunEnd(s, e))
  }

  /** `pattern.search(s, pos)`: the leftmost start of a separator at or after `pos`. */
  function FindSep(s: string, pos: nat): (r: Option<nat>)
    requires pos <= |s|
    ensures r.Some? ==> pos <= r.value < |s| && SepEnd(s, r.value).Some?
    ensures r.Some? ==> forall p :: pos <= p < r.value ==> SepEnd(s, p).None?
    ensures r.None? ==> forall p :: pos <= p <= |s| ==> SepEnd(s, p).None?
  {
    var ok := (p: nat) => p <= |s| && SepEnd(s, p).Some?;
    var r := FirstWhere(|s|, pos, ok);
    assert forall p: nat :: p <= |s| ==> (ok(p) <==> SepEnd(s, p).Some?);
    assert SepEnd(s, |s|).None?;
    r
  }

  /** `re.split(pattern, s[pos..])`: the pieces between successive separators. */
  function SplitSeps(s: string, pos: nat): (parts: seq<string>)
    requires pos <= |s|
    ensures |parts| >= 1
    ensures |parts| == 1 <==> FindSep(s, pos).None?
    decreases |s| - pos
  {
    match FindSep(s, pos)
    case None => [s[pos..]]
    case Some(p) => [s[pos..p]] + SplitSeps(s, SepEnd(s, p).value)
  }

  /** The titles accepted without a separator. */
  predicate IsSpecialTitle(event: string)
  {
    Lower(event) == "nfl redzone" || Lower(event) == "college gameday"
  }

  /**
   * `Leagues.is_valid`. Without a separator only the two special titles are
   * valid; with exactly one, the event is valid iff either stripped side is a
   * team of the league; with more, unpacking the split into two names raises.
   */
  function IsValid(t: Table, event: string, league: string): (r: Result<bool>)
    ensures FindSep(event, 0).None? ==> r == Ok(IsSpecialTitle(event))
    ensures var parts := SplitSeps(event, 0);
      |parts| == 2 ==> r == Ok(Strip(parts[0]) in Teams(t, league) || Strip(parts[1]) in Teams(t, league))
    ensures |SplitSeps(event, 0)| > 2 <==> r == Err(ValueError)
  {
    if FindSep(event, 0).Some? then
      var parts := SplitSeps(event, 0);
      if |parts| == 2 then
        Ok(Strip(parts[0]) in Teams(t, league) || Strip(parts[1]) in Teams(t, league))
      else Err(ValueError)
    else Ok(IsSpecialTitle(event))
  }
  /**
   * A name is a team of a league exactly when the "teams" object lists it
   * for that league, so a two-team event of a league without a list is
   * never valid.
   */
  lemma TeamsMeaning(t: Table, league: string, event: string)
    ensures forall x :: x in Teams(t, league) <==> league in t.teams && x in t.teams[league]
    ensures league !in t.teams && |SplitSeps(event, 0)| == 2 ==> IsValid(t, event, league) == Ok(false)
  {
  }


  /** `Leagues.get_tvg_info`: the (tvg id, logo) for an event of a sport. */
  function GetTvgInfo(t: Table, sport: string, event: string): Result<(Option<string>, string)>
  {
    if IsFootball(sport) then
      match IsValid(t, event, "NFL")
      case Err(e) => Err(e)
      case Ok(v) => Ok(if v then Info(t, "NFL") else Info(t, "NCAA"))
    else if IsBasketball(sport) then
      match IsValid(t, event, "NBA")
      case Err(e) => Err(e)
      case Ok(true) => Ok(Info(t, "NBA"))
      case Ok(false) =>
        match IsValid(t, event, "WNBA")
        case Err(e) => Err(e)
        case Ok(true) => Ok(Info(t, "WNBA"))
        case Ok(false) => Ok(Info(t, "Basketball"))
    else if IsHockey(sport) then Ok(Info(t, "NHL"))
    else Ok(Info(t, sport))
  }

  predicate IsFootball(sport: string) { sport == "American Football" || sport == "NFL" }
  predicate IsBasketball(sport: string) { sport == "Basketball" || sport == "NBA" }
  predicate IsHockey(sport: string) { sport == "Ice Hockey" || sport == "Hockey" }

  /**
   * `get_tvg_info` only raises for a football or basketball event with two or
   * more separators, and then raises the `ValueError` of the unpacking.
   */
  lemma GetTvgInfoRaises(t: Table, sport: string, event: string)
    ensures GetTvgInfo(t, sport, event).Err? <==>
      ((IsFootball(sport) || IsBasketball(sport)) && |SplitSeps(event, 0)| > 2)
    ensures GetTvgInfo(t, sport, event).Err? ==> GetTvgInfo(t, sport, event).error == ValueError
  {
    var bad := |SplitSeps(event, 0)| > 2;
    if IsFootball(sport) {
      assert bad <==> IsValid(t, event, "NFL").Err?;
    } else if IsBasketball(sport) {
      assert bad <==> IsValid(t, event, "NBA").Err?;
      assert bad <==> IsValid(t, event, "WNBA").Err?;
    }
  }

  /**
   * The dispatch of `get_tvg_info`: a sport outside the four groups is looked up
   * by its own name, hockey by "NHL"; a football event is an "NFL" game or
   * falls back to "NCAA"; a basketball event is tried as "NBA", then "WNBA",
   * then falls back to "Basketball"; the logo is never empty.
   */
  lemma GetTvgInfoDispatch(t: Table, sport: string, event: string)
    ensures GetTvgInfo(t, sport, event).Ok? ==> GetTvgInfo(t, sport, event).value.1 != ""
    ensures !IsFootball(sport) && !IsBasketball(sport) && !IsHockey(sport) ==>
      GetTvgInfo(t, sport, event) == Ok(Info(t, sport))
    ensures IsHockey(sport) ==> GetTvgInfo(t, sport, event) == Ok(Info(t, "NHL"))
    ensures IsFootball(sport) && IsValid(t, event, "NFL") == Ok(true) ==>
      GetTvgInfo(t, sport, event) == Ok(Info(t, "NFL"))
    ensures IsFootball(sport) && IsValid(t, event, "NFL") == Ok(false) ==>
      GetTvgInfo(t, sport, event) == Ok(Info(t, "NCAA"))
    ensures IsBasketball(sport) && IsValid(t, event, "NBA") == Ok(true) ==>
      GetTvgInfo(t, sport, event) == Ok(Info(t, "NBA"))
    ensures IsBasketball(sport) && IsValid(t, event, "NBA") == Ok(false) && IsValid(t, event, "WNBA") == Ok(true) ==>
      GetTvgInfo(t, sport, event) == Ok(Info(t, "WNBA"))
    ensures IsBasketball(sport) && IsValid(t, event, "NBA") == Ok(false) && IsValid(t, event, "WNBA") == Ok(false) ==>
      GetTvgInfo(t, sport, event) == Ok(Info(t, "Basketball"))
  {
    if IsFootball(sport) {
      assert !IsBasketball(sport) && !IsHockey(sport);
    } else if IsBasketball(sport) {
      assert !IsHockey(sport);
    }
  }
}
