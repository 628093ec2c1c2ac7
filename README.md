# IPTV event playlist aggregator — a Dafny model

This project models the core of a scraper that builds IPTV playlists of live
sports events. Each source adapter does the same things:
- finds the events of its site (an HTML page, a JSON API, an RSS feed or an
  M3U playlist) that are not already cached and start near now;
- resolves each event to a stream playlist URL, by a page fetch, a regular
  expression or a headless browser;
- folds the outcomes into two maps: the cache it writes back, and the live
  map the aggregator reads.

The aggregator (`M3U8/fetch.py`) then does three things:
- merges the adapters' live maps;
- numbers the channels in key order;
- renders two playlists: the base playlist followed by the events, and the
  events alone.

The shared helpers are also modelled:
- the choice of a working mirror, the status probe and the browser request
  filter (`webwork.py`);
- the league/EPG lookup `Leagues` (`config.py`).

What the modules cover:
- One Dafny module per source file: `Fetch`, `Webwork`, `Config`,
  `Watchfooty`, `Fstv`, `Roxie`, `Streameast`, `Ppv`, `Lotus`, `Strmfree`,
  `Pixel`, `Streambtw`, `Tvpass`, and the legacy `Livetvsx` and `Ace`.
- `Outcomes` holds `Option`, `Result`, the Python exceptions that can escape
  an adapter, and `Keep`. `Keep` is the fold over per-item outcomes in which
  the first exception stops the loop.
- `Text` holds the Python string operations the adapters use.
- `Dicts` holds Python's insertion-ordered `dict`.
- `Merge` states why the merge of `main` never lets one adapter's channel replace another's: the adapters' tags are distinct.
- `Store` holds what every `scrape` shares:
  - the stored entry and the key `"[sport] name (TAG)"`;
  - the inclusive time window;
  - the two recording policies. Tombstoning (watchfooty, livetvsx) caches
    every attempt and puts only the ones with a URL live. Drop-on-failure
    (all other adapters) records only the attempts with a URL.

How the source is represented:
- Parsed HTML, JSON and XML become record datatypes.
- Times are integer epoch seconds, and dates are day numbers.
- A page fetch, `urljoin`, `unquote` and a browser resolution are function
  parameters.
- An exception that escapes Python code becomes an `Err` result.

Where the loops of the source update state, the model uses a `method` with a
loop. Each method is proved equal to a specification function (`Run`,
`Discover`, `Collect`, ...), and lemmas state what that function means:
- soundness: every stored entry comes from a qualifying record;
- completeness: every qualifying record is stored;
- the exact conditions under which a run raises.

The request capture of `webwork.py` appends to a list and sets a flag. It is
modelled as a class whose method updates its fields.

Behaviours of the code that the model keeps as written:
- A probe that raises something other than an HTTP error or a timeout
  counts as a working mirror. So does any 200 answer, but a 204 does not.
- Each adapter contains its own fetch failures, but an exception that
  escapes an adapter aborts `main` before either playlist is written (see
  Findings).
- A tombstone is stored with URL `None`, which the model stores as "".

## Model

| member | source | states |
|---|---|---|
| Fetch.ChnoSound | M3U8/fetch.py:35-37 | every number `findall` returns for `tvg-chno="(\d+)"` is the number of a match in the base text |
| Fetch.ChnoComplete | M3U8/fetch.py:35-37 | every match of `tvg-chno="(\d+)"` is found by the left-to-right non-overlapping scan |
| Fetch.MaxOr0 | M3U8/fetch.py:37 | `max(..., default=0)`: an upper bound of every number, 0 for none, otherwise one of the numbers |
| Fetch.SplitLines | M3U8/fetch.py:39 | `splitlines`: no line holds a line break, and there are no lines iff the text is empty |
| Fetch.LoadBase | M3U8/fetch.py:30-39 | the base's highest channel number is at least every `tvg-chno` number, 0 when there is none, and otherwise is one of them |
| Fetch.MergeAllKeys | M3U8/fetch.py:61-73 | the merged keys are exactly the union of the adapters' keys |
| Fetch.MergeAllValue | M3U8/fetch.py:61-73 | a shared key takes its value from the last map in the `\|` chain that has it |
| Merge.ChainTagsDistinct | M3U8/fetch.py:61-73 | the eleven tags of the `\|` chain are distinct and "("-free, given a "("-free strmd tag that none of the ten modelled adapters uses |
| Merge.MergeKeepsOwner | M3U8/fetch.py:61-73 | over all eleven merged maps, strmd's included, when every map holds only keys ending in its own tag, the merge keeps each key's entry from the map that produced it, so no adapter overwrites another |
| Fetch.BelowTotal | M3U8/fetch.py:80 | Python's string order is total on distinct strings (and, with BelowTransitive and BelowIrreflexive, a strict order) |
| Fetch.SortedUnique | M3U8/fetch.py:80 | two strictly ascending enumerations of the same keys are equal, so `sorted` has one answer |
| Fetch.SortKeys | M3U8/fetch.py:79-82 | the keys sorted: strictly ascending in Python's order and exactly the given keys |
| Fetch.Block | M3U8/fetch.py:83-102 | each channel contributes exactly five lines |
| Fetch.BlocksLayout | M3U8/fetch.py:93-102 | channel i occupies lines 5i..5i+4: the tag line, the referrer and origin (both the entry's base), the user agent and the URL |
| Fetch.LiveMatchesCombined | M3U8/fetch.py:83-102 | the live and combined blocks agree on every line except the tag line, which differs only in its channel number |
| Fetch.ExtendChannels | M3U8/fetch.py:79-102 | the loop builds the combined list numbered from the base's maximum and the live list numbered from 0 |
| Fetch.BuildPlaylists | M3U8/fetch.py:61-115 | the combined text is the base lines unchanged followed by the blocks; the events text is the header line followed by the same blocks |
| Fetch.ChannelNumbers | M3U8/fetch.py:79-91 | channel i of the combined list is numbered base+i+1 and of the live list i+1: consecutive, no gaps or repeats |
| Fetch.NumbersAboveBase | M3U8/fetch.py:83-86 | every added channel number exceeds every channel number of the base playlist |
| Fetch.FirstFailure | M3U8/fetch.py:59 | there is no first failure iff every adapter run finished |
| Fetch.MainAsWritten | M3U8/fetch.py:45-59 | `main` as written fails iff some adapter raised |
| Fetch.OneFailureAbortsAll | M3U8/fetch.py:45-59 | one raising adapter loses both playlists as written |
| Fetch.IsolatedKeepsOthers | M3U8/fetch.py:45-73 | with failures contained, the channels are exactly the keys of the adapters that finished |
| Webwork.CheckStatus | M3U8/scrapers/utils/webwork.py:33-40 | a response answers `code == 200`, an HTTP error or timeout answers false, and any other exception escapes |
| Webwork.WorkingMeaning | M3U8/scrapers/utils/webwork.py:44-47 | a mirror counts as working iff its probe answered 200 or raised something other than an HTTP error |
| Webwork.WorkingSelects | M3U8/scrapers/utils/webwork.py:46-48 | the working mirrors are the mirrors with a truthy result, in input order: an increasing index map picks exactly the truthy positions |
| Webwork.WorkingFirst | M3U8/scrapers/utils/webwork.py:46-50 | the first working mirror has a truthy result, and every mirror before it has a falsy one |
| Webwork.GetBaseMeaning | M3U8/scrapers/utils/webwork.py:42-50 | `get_base` returns the first mirror in input order whose probe succeeded, and `None` iff none did |
| Webwork.FirstLine | M3U8/scrapers/utils/webwork.py:95-98 | the text `.` can reach from `^` is everything before the first newline |
| Webwork.CaptureBuffer.CaptureReq | M3U8/scrapers/utils/webwork.py:91-102 | an accepted URL is appended and the flag is set; a rejected one changes nothing |
| Webwork.CapturedMeaning | M3U8/scrapers/utils/webwork.py:91-102 | the captured list is exactly the accepted requests, in arrival order: an increasing index map picks exactly the accepted positions; it is empty iff none was accepted |
| Webwork.CaptureBuffer.CaptureAll | M3U8/scrapers/utils/webwork.py:91-102 | the listener called on each request in turn appends exactly the accepted ones, in order, and the flag ends set iff it was set or some request was accepted |
| Webwork.CapturedFirst | M3U8/scrapers/utils/webwork.py:151-153 | the first captured URL is the earliest accepted request |
| Webwork.ProcessEventMeaning | M3U8/scrapers/utils/webwork.py:127-160 | a loaded page resolves to its earliest accepted request, and to nothing iff it failed or no request was accepted |
| Webwork.LastCaptured | M3U8/scrapers/watchfooty.py:134-135 | the watchfooty/livetvsx variant returns the latest accepted request (no later request is accepted), and nothing iff the page failed or no request was accepted |
| Webwork.CapturedLast | M3U8/scrapers/old/livetvsx.py:183-185 | the last captured URL is the latest accepted request |
| Config.Clean | M3U8/scrapers/utils/config.py:39-43 | the time floored to the minute: a multiple of 60, at most the time and less than a minute before it |
| Config.TeamsMeaning | M3U8/scrapers/utils/config.py:103-138 | a name is a team of a league iff the "teams" object lists it for that league, so a two-team event of a league without a list is never valid |
| Config.FirstMatch | M3U8/scrapers/utils/config.py:109-118 | the index of the first table row whose league name or "names" list matches, and no earlier row matches |
| Config.Info | M3U8/scrapers/utils/config.py:106-123 | the upper-cased name's first match gives its tvg id and its logo (or the live image); a miss gives no id and the live image |
| Config.FindSep | M3U8/scrapers/utils/config.py:131-133 | the leftmost separator `\s+(?:-\|vs\.?\|at)\s+` at or after a position |
| Config.SplitSeps | M3U8/scrapers/utils/config.py:134 | `re.split`: one more piece than separators, the pieces being the text between them |
| Config.IsValid | M3U8/scrapers/utils/config.py:125-138 | no separator: valid iff the lower-cased title is one of the two special titles; one: valid iff either stripped side is a team; more: raises `ValueError` |
| Config.GetTvgInfoRaises | M3U8/scrapers/utils/config.py:146-164 | only a football or basketball event with two or more separators raises, with `ValueError` |
| Config.GetTvgInfoDispatch | M3U8/scrapers/utils/config.py:146-170 | other sports are looked up by name and hockey by "NHL"; a football event takes "NFL" when it is a valid NFL game and "NCAA" otherwise; a basketball event takes "NBA" when valid for it, else "WNBA" when valid for that, else "Basketball"; the logo is never empty |
| Watchfooty.Refreshed | M3U8/scrapers/watchfooty.py:69-72 | every match's "timestamp" moved to "ts" and only the last match stamped; `KeyError` for a match without one and `IndexError` for no matches |
| Watchfooty.RefreshApiCache | M3U8/scrapers/watchfooty.py:69-74 | the in-place renaming loop gives `Refreshed` |
| Watchfooty.MsToSecondsMeaning | M3U8/scrapers/watchfooty.py:175 | dropping the last three characters of a number of four or more digits is division by 1000 truncated toward zero; any number between -1000 and 1000 exclusive raises `ValueError` |
| Text.IntToStringRoundTrip | M3U8/scrapers/watchfooty.py:175 | `int(str(n))` is n for every integer |
| Watchfooty.LeagueCut | M3U8/scrapers/watchfooty.py:165-182 | the cut is the first '-' or '(' of the league |
| Watchfooty.SportOfPlain | M3U8/scrapers/watchfooty.py:182 | a league without dash or parenthesis is its own sport, stripped |
| Watchfooty.GetEvents | M3U8/scrapers/watchfooty.py:160-201 | the loop gives the fold of the per-match outcomes |
| Watchfooty.GetEventsSound | M3U8/scrapers/watchfooty.py:162-189 | every event starts inside the inclusive window around the minute-floored now, and its key was not cached |
| Watchfooty.GetEventsComplete | M3U8/scrapers/watchfooty.py:162-189 | every match with a truthy timestamp, a readable start inside the window and an uncached key is returned with its sport, name, link and start |
| Watchfooty.ProcessEvent | M3U8/scrapers/watchfooty.py:104-138 | a URL is returned iff the "(N)" count is present and non-zero, the page loaded and some request was accepted; it is then the latest accepted request |
| Watchfooty.AttemptFor | M3U8/scrapers/watchfooty.py:245-262 | an attempt is keyed "[sport] name (WFTY)", stores the URL or "", prefers the poster, and raises iff the tvg lookup raises |
| Watchfooty.Scrape | M3U8/scrapers/watchfooty.py:204-277 | no working mirror: the cache is written back unchanged and nothing new is found; otherwise every attempt is recorded by tombstoning, and the success count is the number of attempts that found a URL |
| Watchfooty.ScrapeRecordsEveryAttempt | M3U8/scrapers/watchfooty.py:206-268 | every attempted key is cached, the live map is the cached entries with a URL plus this run's URLs, and every live entry has a URL |
| Fstv.SportLabelMeaning | M3U8/scrapers/fstv.py:87-90 | the label is the text after the first "]", stripped, or the whole text without "]" |
| Fstv.ScanMeaning | M3U8/scrapers/fstv.py:94-109 | the seen set grows by exactly the events' hrefs, which are all the new non-empty hrefs; no event repeats an href or has a cached one |
| Fstv.GetEvents | M3U8/scrapers/fstv.py:76-111 | the nested loop and the caller's set it grows equal `Discover` |
| Fstv.ProcessEventMeaning | M3U8/scrapers/fstv.py:30-57 | a bare `None` iff timed out or the iframe has no src; ("", "") on failure or without iframe; otherwise the decoded src after its last "link=" |
| Fstv.FstvKeyTagged | M3U8/scrapers/fstv.py:157-161 | both forms of the key end in the " (FSTV)" tag |
| Fstv.FstvKeyInjective | M3U8/scrapers/fstv.py:157-161 | for sports without "]", two events share a key only if they agree on the sport and the match name |
| Fstv.EventResultSound | M3U8/scrapers/fstv.py:154-172 | a stored entry has a URL, the mirror as base, the run's time and the event's href |
| Fstv.AttemptsNew | M3U8/scrapers/fstv.py:154-172 | every attempt kept from events with uncached hrefs is a new entry |
| Fstv.Scrape | M3U8/scrapers/fstv.py:114-181 | the method computes `Run`: `KeyError` for a cached entry without href, the cache unchanged without a mirror, otherwise recording |
| Fstv.RunStores | M3U8/scrapers/fstv.py:115-174 | the cache equals the live map, holding the cached keys plus the keys that found a URL; each new entry has an href that was not cached |
| Roxie.SearchFromMeaning | M3U8/scrapers/roxie.py:36-43 | the search finds a match iff the pattern matches somewhere, and returns the leftmost one |
| Roxie.MatchAtSound | M3U8/scrapers/roxie.py:36-43 | a captured URL is quote-free, follows `showPlayer('clappr', '`, precedes a quote and ")", and contains ".m3u8" |
| Roxie.RefreshHtmlCache | M3U8/scrapers/roxie.py:48-95 | the row loop computes `RefreshHtml` |
| Roxie.RefreshHtmlSound | M3U8/scrapers/roxie.py:67-93 | every event comes from a row with a link, an href and a countdown, keyed "[sport] event (ROXIE)", with the refresh time |
| Roxie.RefreshHtmlComplete | M3U8/scrapers/roxie.py:67-93 | every row with a link, an href and a full countdown has its key in the table |
| Roxie.RefreshHtmlRaises | M3U8/scrapers/roxie.py:78-83 | a refresh raises iff some row with a link and an href has a countdown whose "data-start" is missing or not in the "%B %d, %Y %H:%M:%S" form; the first such row decides between `KeyError` (missing) and `ValueError` (malformed) |
| Roxie.CopyInto | M3U8/scrapers/roxie.py:119 | copying a table's items assigns each of its keys in order |
| Roxie.RefreshSports | M3U8/scrapers/roxie.py:106-119 | the refresh branch computes `RefreshAll` over the six sports |
| Roxie.RefreshAllSound | M3U8/scrapers/roxie.py:106-119 | every merged event is the value that some sport's table holds for its key |
| Roxie.RefreshAllErrPersists | M3U8/scrapers/roxie.py:106-119 | once the refresh of one sport raises, the whole refresh raises that error |
| Roxie.FilterEvents | M3U8/scrapers/roxie.py:123-137 | the filter loop computes `Fresh` and leaves the table unchanged |
| Roxie.FreshMeaning | M3U8/scrapers/roxie.py:125-135 | `get_events` returns exactly the uncached events whose start is inside the inclusive window |
| Roxie.Scrape | M3U8/scrapers/roxie.py:140-203 | the method computes `Run` |
| Roxie.RunStores | M3U8/scrapers/roxie.py:182-197 | the cache equals the live map and keeps every cached key; new entries have a URL, an empty base and a time inside the window |
| Roxie.RunStarts | M3U8/scrapers/roxie.py:182-197 | the cache holds the cached keys plus the keys that found a URL, and each new entry's timestamp is the start of the fresh event with its key |
| Streameast.ProcessCard | M3U8/scrapers/streameast.py:59-98 | the body of the card loop computes `Classify` |
| Streameast.ClassifySound | M3U8/scrapers/streameast.py:56-98 | a kept card has an href (joined into the link), a name from its team spans, a time element, a start read from "data-time", an uncached key, and is "LIVE" or inside the window |
| Text.ParseIntPadded | M3U8/scrapers/streameast.py:81 | `int()` ignores whitespace around the digits |
| Text.ParseIntSignAndGroups | M3U8/scrapers/streameast.py:81 | for every sign "", "+" or "-" and every non-empty list of non-empty digit runs, `int()` of the sign followed by the runs joined with single underscores is the sign applied to the value of all their digits |
| Text.ParseIntRejects | M3U8/scrapers/streameast.py:81 | for every text, `int()` fails exactly when, after stripping whitespace and one sign, what is left is empty, starts or ends with '_', holds "__" or holds a character that is neither a digit nor '_'; its only error is `ValueError` |
| Streameast.GetEvents | M3U8/scrapers/streameast.py:49-100 | the nested loop computes `Discover` |
| Streameast.DiscoverSound | M3U8/scrapers/streameast.py:55-98 | every event comes from a named section, its key is not cached, and it is "LIVE" or inside the window |
| Streameast.DiscoverComplete | M3U8/scrapers/streameast.py:56-98 | every card with an href, a name, a time element, a readable start and an uncached key is returned when it is "LIVE" or starts inside the window |
| Streameast.Scrape | M3U8/scrapers/streameast.py:103-164 | the method computes `Run` |
| Streameast.RunStores | M3U8/scrapers/streameast.py:144-159 | every added entry has a URL and the fixed embed base, and the cache equals the live map |
| Ppv.DiscoverNeverFails | M3U8/scrapers/ppv.py:58-93 | discovery over present API data never raises |
| Ppv.GetEvents | M3U8/scrapers/ppv.py:52-93 | the nested loop computes `Discover` |
| Ppv.DiscoverSound | M3U8/scrapers/ppv.py:58-91 | every event comes from a named, timed stream with an iframe outside "24/7 Streams", with that iframe as link, an uncached key and a start inside the window |
| Ppv.DiscoverComplete | M3U8/scrapers/ppv.py:58-91 | every such stream is returned |
| Ppv.Scrape | M3U8/scrapers/ppv.py:96-158 | the method computes `Run` |
| Ppv.RunStores | M3U8/scrapers/ppv.py:129-153 | the cache equals the live map, holding the cached keys plus the resolved ones; each new entry has a URL; the new count is the number of new keys |
| Ppv.UnreachableApiRaises | M3U8/scrapers/ppv.py:41-58 | with no cached API blob and a failed fetch, the run raises `KeyError` |
| Lotus.FixLeagueWords | M3U8/scrapers/lotus.py:20-21 | a long league name keeps its words in order, each capitalised, joined by single spaces |
| Lotus.FixLeague | M3U8/scrapers/lotus.py:20-21 | a short league name keeps its length (it is upper-cased) |
| Lotus.FixLeagueIdempotent | M3U8/scrapers/lotus.py:20-21 | fixing a fixed name changes nothing, unless a long name shrank to five characters or fewer |
| Lotus.ClassifySound | M3U8/scrapers/lotus.py:70-94 | an item raises `IndexError` iff it is outside "channel tv" and has no streams; a kept item gives the fixed league, its first link and an uncached key |
| Lotus.GetEvents | M3U8/scrapers/lotus.py:61-96 | the nested loop computes `Discover` |
| Lotus.DiscoverRaises | M3U8/scrapers/lotus.py:63-78 | discovery raises iff some day's "day_et" is not a "%Y-%m-%d" date, or some item of today outside "channel tv" has no streams; the first such day decides between `ValueError` (its date) and `IndexError` (its item) |
| Lotus.DiscoverSound | M3U8/scrapers/lotus.py:63-94 | every event comes from an item of today outside "channel tv", with its first link and an uncached key |
| Lotus.DiscoverComplete | M3U8/scrapers/lotus.py:63-94 | every such item with a first link and an uncached key is returned |
| Lotus.Scrape | M3U8/scrapers/lotus.py:99-161 | the method computes `Run` |
| Lotus.RunStores | M3U8/scrapers/lotus.py:116-156 | the cache equals the live map; new entries have a URL, the Lotus base and the run's time; the new count is the number of new keys |
| Strmfree.DiscoverNeverFails | M3U8/scrapers/strmfree.py:61-89 | discovery over present API data never raises |
| Strmfree.ProcessStream | M3U8/scrapers/strmfree.py:66-87 | the body of the stream loop computes `Classify` |
| Strmfree.ScanCategory | M3U8/scrapers/strmfree.py:62-87 | one category's loop gives the fold of its outcomes |
| Strmfree.GetEvents | M3U8/scrapers/strmfree.py:55-89 | the nested loop computes `Discover` |
| Strmfree.DiscoverSound | M3U8/scrapers/strmfree.py:57-87 | every event starts in [now-1h, now+15min], has an uncached key and the player page as link |
| Strmfree.DiscoverComplete | M3U8/scrapers/strmfree.py:57-87 | every such stream is returned |
| Strmfree.Upgrade | M3U8/scrapers/strmfree.py:141 | the rewrite keeps a URL's presence and length, and leaves a URL without "540p" unchanged |
| Strmfree.Scrape | M3U8/scrapers/strmfree.py:92-157 | the method computes `Run` |
| Strmfree.RunStores | M3U8/scrapers/strmfree.py:129-148 | the cache equals the live map, holding the cached keys plus the keys that found a URL; new entries have a URL, the base and a time inside the window |
| Strmfree.RunStarts | M3U8/scrapers/strmfree.py:129-148 | each new entry's timestamp is the start of a stream of the API data whose league and name give its key |
| Pixel.PlainLinkMatches | M3U8/scrapers/pixel.py:57-60 | an http link to an upper-case ".M3U8" with a query is a stream URL |
| Pixel.EmptyHostRefused | M3U8/scrapers/pixel.py:57-60 | "http://.m3u8" is not, since the lazy run needs one character |
| Pixel.ProcessServer | M3U8/scrapers/pixel.py:83-98 | the body of the server loop computes `ServerResult` |
| Pixel.ServerResultSound | M3U8/scrapers/pixel.py:83-98 | a kept server has a link holding a stream URL and an uncached key "[sport] name z (PIXL)" |
| Pixel.ScanEvent | M3U8/scrapers/pixel.py:80-98 | the server loop gives the fold of the three outcomes |
| Pixel.GetEvents | M3U8/scrapers/pixel.py:55-100 | the nested loops filling `events` compute `Collect` |
| Pixel.CollectSound | M3U8/scrapers/pixel.py:65-98 | every entry is keyed by an uncached server key of a current event and carries that server's link, the base and the event's start |
| Pixel.CollectComplete | M3U8/scrapers/pixel.py:65-98 | every server of a current event with a stream URL and an uncached key has an entry |
| Pixel.Scrape | M3U8/scrapers/pixel.py:103-123 | the method computes `Run` |
| Pixel.RunStores | M3U8/scrapers/pixel.py:114-118 | both maps are the cache plus the new entries, no cached entry is replaced, and the new count is the number collected |
| Pixel.CollectFresh | M3U8/scrapers/pixel.py:87-88 | no collected key is a cached one |
| Streambtw.SearchFromMeaning | M3U8/scrapers/streambtw.py:33-40 | the search finds a match iff the pattern matches somewhere, and returns the leftmost one |
| Streambtw.ExtractUrlSound | M3U8/scrapers/streambtw.py:20-42 | a returned URL is a captured `http(s)://` text of the page, free of quotes, whitespace and ">", containing ".m3u8" |
| Streambtw.ProcessCard | M3U8/scrapers/streambtw.py:58-74 | the body of the card loop computes `CardResult` |
| Streambtw.GetEvents | M3U8/scrapers/streambtw.py:45-76 | the card loop computes `Discover` |
| Streambtw.DiscoverRaises | M3U8/scrapers/streambtw.py:58-66 | discovery raises `AttributeError` iff a card lacks its button, or has an href but lacks its title or text |
| Streambtw.DiscoverSound | M3U8/scrapers/streambtw.py:58-74 | every event comes from a card with an href: its title, text and joined link |
| Streambtw.DiscoverComplete | M3U8/scrapers/streambtw.py:58-74 | every card with an href, title and text is kept |
| Streambtw.Scrape | M3U8/scrapers/streambtw.py:79-128 | the method computes `Run` |
| Streambtw.RunStores | M3U8/scrapers/streambtw.py:80-128 | a non-empty cache becomes the live map unwritten; otherwise the live map is written back, keyed by the events that found a URL, each with the base and the run's time |
| Streambtw.RunUrls | M3U8/scrapers/streambtw.py:109-124 | each stored URL is captured from the page of an event with that key |
| Tvpass.StreamUrl | M3U8/scrapers/tvpass.py:63 | the stored URL is an origin-server "mono.m3u8" link |
| Tvpass.AttrFromSound | M3U8/scrapers/tvpass.py:44-46 | a found value stands between `name="` and the next quote, and holds no quote |
| Tvpass.DropLastGroupMeaning | M3U8/scrapers/tvpass.py:54 | the event drops the last "(" and what follows it; without "(" it is empty |
| Tvpass.ChannelMeaning | M3U8/scrapers/tvpass.py:58 | the channel is the "/"-free segment just before the final "/sd" |
| Tvpass.LineResultMeaning | M3U8/scrapers/tvpass.py:43-70 | a line yields an entry iff it is an `#EXTINF` without tvg-id, its next line ends "/sd", and its tvg-name is non-empty with a group-title; it raises exactly on the last line or a missing attribute |
| Tvpass.ProcessLine | M3U8/scrapers/tvpass.py:43-70 | the body of the line loop computes `LineResult` |
| Tvpass.Scrape | M3U8/scrapers/tvpass.py:28-74 | the method computes `Run`: a non-empty cache or an empty playlist writes nothing |
| Tvpass.RunStores | M3U8/scrapers/tvpass.py:42-72 | the cache written is the live map; each key holds its last line's entry with the origin URL, the base and the run's time |
| Livetvsx.LabelsMeaning | M3U8/scrapers/old/livetvsx.py:240-245 | an empty description gives ("", ""); one without "." raises `IndexError`; otherwise the first two "."-parts, stripped |
| Livetvsx.ItemResultMeaning | M3U8/scrapers/old/livetvsx.py:226-251 | an item raises iff it has a title, a link and a time in the window, with a non-empty description lacking "."; a pubDate matching no format of `from_str` is timed `default_8`, and only one whose parsing raises is skipped; an event carries that time and the description's first two "."-parts |
| Livetvsx.ProcessItem | M3U8/scrapers/old/livetvsx.py:219-263 | the body of the item loop computes `ItemResult` |
| Livetvsx.GetEvents | M3U8/scrapers/old/livetvsx.py:204-265 | the item loop computes `Discover` |
| Livetvsx.DiscoverSound | M3U8/scrapers/old/livetvsx.py:212-251 | every event is within half an hour of the minute and has an uncached key |
| Livetvsx.DiscoverComplete | M3U8/scrapers/old/livetvsx.py:219-263 | every item that yields an event is kept |
| Livetvsx.EventAttempt | M3U8/scrapers/old/livetvsx.py:315-328 | every attempt stores the last captured URL (or ""), the LiveTV base and the event's time |
| Livetvsx.Scrape | M3U8/scrapers/old/livetvsx.py:268-342 | the method computes `Run` |
| Livetvsx.RunStores | M3U8/scrapers/old/livetvsx.py:271-333 | the cache gains every event's key and the live map only those with a URL, seeded with the cached entries with a URL |
| Livetvsx.AttemptsInWindow | M3U8/scrapers/old/livetvsx.py:322-328 | every attempt has the LiveTV base and a time within half an hour of the minute |
| Ace.IndexOfFirst | M3U8/scrapers/old/ace.py:43-48 | `in` and `split(sep, 1)` look at the first occurrence |
| Ace.TitleMeaning | M3U8/scrapers/old/ace.py:43-50 | the title is the stripped text after the first "//", or the whole text; sport and event are the stripped sides of the first " - ", else "" and the title |
| Ace.GetSchedule | M3U8/scrapers/old/ace.py:22-56 | the anchor loop computes `Schedule` |
| Ace.ScheduleSound | M3U8/scrapers/old/ace.py:17-54 | every schedule item comes from a link whose href starts with "/" and is not "/news/" |
| Ace.ScheduleComplete | M3U8/scrapers/old/ace.py:17-54 | every such link gives its item |
| Ace.SearchSrcMeaning | M3U8/scrapers/old/ace.py:76 | the search finds a match iff `src\s*=\s*['"](.*?)['"]` matches, and returns a quoted value after "src" |
| Ace.ButtonLinksMeaning | M3U8/scrapers/old/ace.py:73-80 | every button link is a quoted src value containing ".m3u8" of one of the handlers, and every handler with such a value contributes its link |
| Ace.ButtonLinksOrder | M3U8/scrapers/old/ace.py:73-80 | the links follow button order: an increasing index map gives one link for each handler that yields one and none for the others |
| Ace.ButtonLinkSound | M3U8/scrapers/old/ace.py:73-80 | one button's link is a quoted src value of its handler and contains ".m3u8" |
| Ace.GetM3u8Links | M3U8/scrapers/old/ace.py:59-91 | the append loop and the insert at the front compute `M3u8Links` |
| Ace.M3u8LinksMeaning | M3U8/scrapers/old/ace.py:82-91 | the links are the button links, with at most the iframe's link in front, cut after the last CORS proxy prefix |
| Ace.DuplicateThroughProxy | M3U8/scrapers/old/ace.py:85-89 | a link served both by a button and through the proxy iframe appears twice |
| Ace.LinkKeysDistinct | M3U8/scrapers/old/ace.py:109-112 | an event's links are stored under different keys "(S1)", "(S2)", ... |
| Ace.AssignMeaning | M3U8/scrapers/old/ace.py:122 | after the assignments each key holds the last value assigned to it, or its old value |
| Ace.Scrape | M3U8/scrapers/old/ace.py:94-124 | the nested loop computes `Run`, leaving `urls` unchanged without a mirror |
| Ace.RunStores | M3U8/scrapers/old/ace.py:105-122 | every link i of every event is stored under "[sport] event (Si)"; every new key holds one of that event's links with its league logo and id |
| Ace.LinkStored | M3U8/scrapers/old/ace.py:105-122 | the i-th link of a scheduled event is stored under "[sport] event (Si)" |
| Ace.StoredFrom | M3U8/scrapers/old/ace.py:105-122 | a key the run adds holds a link of a scheduled event under that event's numbered key, with its league logo and id |
| Ace.RunKeeps | M3U8/scrapers/old/ace.py:12-122 | with a working mirror, a key of the persistent `urls` that names no link of this run keeps its old entry |
| Store.Seed | M3U8/scrapers/watchfooty.py:206-208 | the live map starts from exactly the cached entries with a URL under tombstoning, and from the whole cache otherwise |
| Store.KeyTag | M3U8/scrapers/ppv.py:73 | the key `"[sport] name (TAG)"` ends in its tag |
| Store.TagUnique | M3U8/fetch.py:61-73 | a key ends in at most one tag without "(", so keys with different tags never collide |
| Store.RecordAllIsOverlay | M3U8/scrapers/watchfooty.py:264-268 | recording in order equals overriding each key by its last selected attempt: the cache takes all attempts (tombstoning) or those with a URL, the live map those with a URL |
| Store.RecordAllTombstoneKeys | M3U8/scrapers/old/livetvsx.py:330-333 | under tombstoning the cache gains every attempted key and the live map the keys with a URL |
| Store.DropGrowth | M3U8/scrapers/ppv.py:149-153 | dropping failures, the two maps stay equal and `len(cached_urls) - cached_count` is the number of new keys found |
| Store.RecordAttempts | M3U8/scrapers/ppv.py:113-149 | the resolution loop computes `Outcome` and counts the URLs found |
| Store.Found | M3U8/scrapers/ppv.py:129-147 | no URL skips; otherwise the lookup may raise, and the entry prefers the poster and falls back to "Live.Event.us" |
| Dicts.SetAllMeaning | M3U8/scrapers/roxie.py:85-93 | assigning pairs into a dict keeps the old keys, adds the assigned ones, and gives each the last value assigned |
| Dicts.SetOrder | M3U8/scrapers/tvpass.py:70 | assigning a new key appends it to the order, and an existing key keeps its place |

## Left out

- Concurrency: `asyncio.gather` in `main` and in the adapters, `Network.safe_process` with its timeout and cancellation, and the `wait_for` blocks. Adapter runs are sequential. A resolution that times out or fails is `None`. The fstv timeout case is an explicit page outcome.
- The browser: Playwright pages, popups, clicks, listeners, and `Network.browser` with its evasion script. A browser resolution is a parameter. For watchfooty and livetvsx it is the page's load result plus the requests it saw, which the modelled capture filter then selects from.
- HTTP: every fetch and `raise_for_status`, and the certificate download of livetvsx. A failed fetch becomes the empty outcome the code returns (`None`, `[]` or `{}`).
- Parsers: selectolax HTML parsing, `ET.iterparse` and JSON decoding. The model starts from record datatypes holding the extracted texts and attributes.
- HTML attributes without a value: selectolax reports them as `None`, which can raise where the code calls a string method. The model treats them as absent.
- The HTML-comment stripping (`re.sub(r"<!--.*?-->", ...)`) in ace.py is part of parsing and is not modelled.
- `urljoin` (section 5.2 of RFC 3986) and `unquote` (section 2.1 of RFC 3986): opaque function parameters.
- Time zones and date parsing (`Time.from_str`, `Time.now`, `Time.to_tz`, `default_8`, pytz):
  - times are given as integer epoch seconds;
  - "same day" is equality of given day numbers;
  - how a livetvsx pubDate reads is an explicit case of the item: a time, a text matching none of `from_str`'s formats (timed `default_8`, passed in as `default8`), or one whose parsing raises.
- The `Cache` store: its TTL, the per-entry and whole-blob modes, the `index` argument, and the timestamp that `refresh_api_cache` stamps into an API blob for it (lotus, strmfree, pixel). These are not part of this model. A load is a given map or an optional blob, and a write is the map the run returns.
- Logging, file reads and writes, and the module globals. The `urls` maps are returned rather than mutated. Ace's `urls` is passed in and returned.
- The `strmd` adapter: fetch.py imports it, but it is not part of this model. Its live map is one of the maps `main` merges; `Merge.MergeKeepsOwner` takes that map as one of its eleven and strmd's tag as a parameter.
- Watchfooty's `get_api_data` fan-out over its sport endpoints: the concatenated match list is an input.
- Livetvsx `get_cert`: only the age rule (`CertReusable`) is modelled. `get_cert` always returns a context, so the branch that writes the cache when there is none is not modelled.
- Strmfree.Upgrade: states presence, length and the no-"540p" case, not the position of every replacement. `Text.Replace` defines the replacement itself.
- Lotus.FixLeague: its own contract states only the short case; the long case is stated by FixLeagueWords. Its kept length holds for ASCII text only: `str.upper()` is `Text.Upper`, which maps ASCII letters alone, while Python's `"ß".upper()` is "SS", so `fix_league("ßc")` gives "SSC" in Python and "ßC" here.
- Lotus.FixLeagueWords: `str.capitalize()` is `Text.Capitalize`, which changes ASCII letters only; a word starting or continuing with another cased letter is capitalised differently by Python.
- Lotus.FixLeagueIdempotent: holds of the ASCII case mapping of `Text.Upper` and `Text.Capitalize`, not of Python's full Unicode mapping.
- Config.Info: `name.upper()` is `Text.Upper`, ASCII only; for "süper lig" Python looks up "SÜPER LIG" and the model "SüPER LIG", so a league name with non-ASCII letters can match differently.
- Text.LowerChar, Text.UpperChar, Text.Lower, Text.Upper, Text.Capitalize and Text.ContainsIgnoreCase: case mapping and `re.IGNORECASE` are ASCII only, where Python maps every cased letter; the kept length stated by `Lower` and `Upper` is not Python's for letters such as "ß" or "İ".
- Text.IsDigit and Text.IsWordChar: the ASCII classes `[0-9]` and `[A-Za-z0-9_]`. Python's `\d`, `\w` and `int()` also accept the other Unicode digits and letters, so a non-ASCII digit is refused here where the source reads it (Streameast.StartOf, Watchfooty.MsToSeconds, the "(N)" count of watchfooty).
- Streameast.StartOf: `int()`'s grammar is modelled by `Text.ParseInt` (surrounding whitespace, an optional sign, digit groups joined by single underscores), with the ASCII-digit restriction above.
- Fetch.SplitLines: states that no line holds a break and that there are no lines only for empty text. It does not state the exact positions of the breaks.
- Pixel.PlainLinkMatches and Pixel.EmptyHostRefused: two concrete inputs, not a characterisation of the pattern. `HasStreamUrl` is the definition.
- Fetch.FirstFailure: takes the earliest failed run in list order, while `asyncio.gather` re-raises whichever failure happens first in time; scheduling is not modelled, so which exception `main` raises when several adapters fail is not either.
- Fetch.Playlists, Fetch.MainIsolated and Fetch.SortedOf are ghost specifications: the sorting of keys is stated through `SortedOf`, which has no compiled counterpart.

## Findings

| source | as written | input that shows it | evidently intended | confidence | as-written member | corrected member |
|---|---|---|---|---|---|---|
| M3U8/fetch.py:45-59 | `asyncio.gather(*tasks)` without `return_exceptions` re-raises the first adapter exception, so `main` stops before writing either playlist | an adapter raising, e.g. tvpass on an `#EXTINF` last line (`IndexError`) while every other adapter succeeds | one adapter's failure loses only that adapter's channels | not executed | Fetch.OneFailureAbortsAll | Fetch.IsolatedKeepsOthers |
