/**
 * M3U8/scrapers/utils/webwork.py, the `Network` helpers the adapters share:
 * the status probe, the choice of a working mirror, the request filter that
 * captures stream playlists, and which captured URL an event resolves to.
 */
module Webwork {
  import opened Outcomes
  import opened Text

  /** `Network.UA`: the user agent sent with every request and written into the playlists. */
  const UA := "Mozilla/5.0 (Windows NT 10.0; Win64; x64) AppleWebKit/537.36 (KHTML, like Gecko) Chrome/134.0.0.0 Safari/537.36 Edg/134.0.0.0"

  /**
   * How one GET of a mirror ended: a response with its final status code, an
   * httpx HTTP error or timeout, or any other exception.
   */
  datatype Probe = Response(code: int) | HttpFailure | Uncaught

  /**
   * What `gather(..., return_exceptions=True)` hands back for one probe: the
   * boolean `check_status` returned, or the exception object it raised.
   */
  datatype ProbeResult = Answer(ok: bool) | Raised

  /**
   * `check_status`: `raise_for_status` turns a code outside 2xx into an
   * `HTTPError`, which is caught like a timeout, and a 2xx code answers whether
   * it is exactly 200: either way the answer is `code == 200`. Any other
   * exception escapes.
   */
  function CheckStatus(p: Probe): (r: ProbeResult)
    ensures r == Answer(true) <==> p == Response(200)
    ensures r.Raised? <==> p.Uncaught?
  {
    match p
    case Response(code) => if 200 <= code < 300 then Answer(code == 200) else Answer(false)
    case HttpFailure => Answer(false)
    case Uncaught => Raised
  }

  /** Python truthiness of a gathered result: an exception object is truthy. */
  predicate Truthy(r: ProbeResult)
  {
    r.Raised? || r.ok
  }

  /**
   * A mirror counts as working exactly when its probe answered 200 or raised
   * something other than an HTTP error; a 204, a redirect code that was not
   * followed, a 404 and a timeout all count as down.
   */
  lemma WorkingMeaning(p: Probe)
    ensures Truthy(CheckStatus(p)) <==> (p == Response(200) || p.Uncaught?)
  {
  }

  /** `[mirror for mirror, success in zip(mirrors, results) if success]` */
  function Working(mirrors: seq<string>, results: seq<ProbeResult>): (w: seq<string>)
    requires |results| == |mirrors|
    ensures |w| <= |mirrors|
    decreases |mirrors|
  {
    if mirrors == [] then []
    else (if Truthy(results[0]) then [mirrors[0]] else []) + Working(mirrors[1..], results[1..])
  }

  /**
   * `get_base`: the first working mirror in the order the mirrors were given,
   * whatever order the probes finished in; `None` iff no mirror works.
   */
  function GetBase(mirrors: seq<string>, probes: seq<Probe>): (r: Option<string>)
    requires |probes| == |mirrors|
  {
    var w := Working(mirrors, seq(|probes|, i requires 0 <= i < |probes| => CheckStatus(probes[i])));
    if w != [] then Some(w[0]) else None
  }

  lemma {:induction false} WorkingFirst(mirrors: seq<string>, results: seq<ProbeResult>)
    requires |results| == |mirrors|
    ensures var w := Working(mirrors, results);
      && (w == [] <==> forall i :: 0 <= i < |mirrors| ==> !Truthy(results[i]))
      && (w != [] ==> exists i :: (0 <= i < |mirrors| && Truthy(results[i]) && w[0] == mirrors[i] &&
            forall j :: 0 <= j < i ==> !Truthy(results[j])))
    decreases |mirrors|
  {
    if mirrors != [] {
      WorkingFirst(mirrors[1..], results[1..]);
      if !Truthy(results[0]) {
        var w' := Working(mirrors[1..], results[1..]);
        assert forall i :: 1 <= i < |mirrors| ==> results[i] == results[1..][i - 1];
        if w' != [] {
          var i :| 0 <= i < |mirrors| - 1 && Truthy(results[1..][i]) && w'[0] == mirrors[1..][i] &&
            forall j :: 0 <= j < i ==> !Truthy(results[1..][j]);
          assert Truthy(results[i + 1]) && w'[0] == mirrors[i + 1];
          forall j | 0 <= j < i + 1 ensures !Truthy(results[j]) {
            if j > 0 {
              assert results[j] == results[1..][j - 1];
            }
          }
        }
      }
    }
  }

  /** Every position moved one place on. */
  function Shift(s: seq<int>): (r: seq<int>)
    ensures |r| == |s| && forall j :: 0 <= j < |s| ==> r[j] == s[j] + 1
  {
    seq(|s|, j requires 0 <= j < |s| => s[j] + 1)
  }

  /** The positions of the truthy results, in increasing order. */
  function Chosen(results: seq<ProbeResult>): seq<int>
    decreases |results|
  {
    if results == [] then []
    else (if Truthy(results[0]) then [0] else []) + Shift(Chosen(results[1..]))
  }

  lemma {:induction false} ChosenAscending(results: seq<ProbeResult>)
    ensures Ascending(Chosen(results), |results|)
    decreases |results|
  {
    if results != [] {
      ChosenAscending(results[1..]);
    }
  }

  lemma {:induction false} ChosenPick(mirrors: seq<string>, results: seq<ProbeResult>)
    requires |results| == |mirrors|
    ensures var c, w := Chosen(results), Working(mirrors, results);
      |c| == |w| && forall j :: 0 <= j < |c| ==> 0 <= c[j] < |mirrors| && w[j] == mirrors[c[j]]
    decreases |mirrors|
  {
    if mirrors != [] {
      var tm, tr := mirrors[1..], results[1..];
      ChosenPick(tm, tr);
      var c, w, c', w' := Chosen(results), Working(mirrors, results), Chosen(tr), Working(tm, tr);
      var h := if Truthy(results[0]) then 1 else 0;
      assert |c| == h + |c'| && |w| == h + |w'|;
      forall j | 0 <= j < |c| ensures 0 <= c[j] < |mirrors| && w[j] == mirrors[c[j]] {
        if j >= h {
          assert c[j] == c'[j - h] + 1 && w[j] == w'[j - h];
          assert tm[c'[j - h]] == mirrors[c[j]];
        }
      }
    }
  }

  lemma {:induction false} ChosenMembers(results: seq<ProbeResult>)
    ensures forall i :: 0 <= i < |results| ==> (Truthy(results[i]) <==> i in Chosen(results))
    decreases |results|
  {
    if results != [] {
      var rest := Chosen(results[1..]);
      ChosenMembers(results[1..]);
      ChosenAscending(results[1..]);
      forall i | 0 <= i < |results| ensures (Truthy(results[i]) <==> i in Chosen(results)) {
        ShiftedIn(rest, Shift(rest), i);
        if i > 0 {
          assert results[i] == results[1..][i - 1];
        }
      }
    }
  }

  lemma ShiftedIn(rest: seq<int>, shifted: seq<int>, i: int)
    requires |shifted| == |rest| && forall j :: 0 <= j < |rest| ==> shifted[j] == rest[j] + 1
    ensures i in shifted <==> i - 1 in rest
  {
    if i - 1 in rest {
      var j :| 0 <= j < |rest| && rest[j] == i - 1;
      assert shifted[j] == i;
    }
  }

  /**
   * The working mirrors are exactly the mirrors whose result is truthy, each
   * once, in the order the mirrors were given.
   */
  lemma WorkingSelects(mirrors: seq<string>, results: seq<ProbeResult>)
    requires |results| == |mirrors|
    ensures exists idx :: (var w := Working(mirrors, results);
      && Ascending(idx, |mirrors|) && |idx| == |w|
      && (forall j :: 0 <= j < |idx| ==> w[j] == mirrors[idx[j]])
      && (forall i :: 0 <= i < |mirrors| ==> (Truthy(results[i]) <==> i in idx)))
  {
    ChosenAscending(results);
    ChosenPick(mirrors, results);
    ChosenMembers(results);
    assert Ascending(Chosen(results), |mirrors|);
  }

  /**
   * The mirror chosen is one of the given mirrors whose probe succeeded and
   * every mirror before it failed; there is none iff every probe failed.
   */
  lemma GetBaseMeaning(mirrors: seq<string>, probes: seq<Probe>)
    requires |probes| == |mirrors|
    ensures GetBase(mirrors, probes).None? <==>
      forall i :: 0 <= i < |mirrors| ==> !Truthy(CheckStatus(probes[i]))
    ensures GetBase(mirrors, probes).Some? ==> exists i :: (0 <= i < |mirrors| &&
      GetBase(mirrors, probes).value == mirrors[i] && Truthy(CheckStatus(probes[i])) &&
      forall j :: 0 <= j < i ==> !Truthy(CheckStatus(probes[j])))
  {
    var results := seq(|probes|, i requires 0 <= i < |probes| => CheckStatus(probes[i]));
    assert forall i :: 0 <= i < |probes| ==> results[i] == CheckStatus(probes[i]);
    WorkingFirst(mirrors, results);
  }

  /** The text the pattern's `.` can reach from `^`: everything before the first newline. */
  function FirstLine(s: string): (r: string)
    ensures |r| <= |s| && r == s[..|r|]
    ensures forall i :: 0 <= i < |r| ==> r[i] != '\n'
    ensures |r| < |s| ==> s[|r|] == '\n'
    decreases |s|
  {
    if s == [] || s[0] == '\n' then [] else [s[0]] + FirstLine(s[1..])
  }

  /**
   * The pattern `^(?!.*(amazonaws|knitcdn)).*\.m3u8` searched with IGNORECASE:
   * the first line mentions ".m3u8" and neither blocked host name.
   */
  predicate IsStreamRequest(url: string)
  {
    var line := FirstLine(url);
    ContainsIgnoreCase(line, ".m3u8") && !ContainsIgnoreCase(line, "amazonaws") &&
      !ContainsIgnoreCase(line, "knitcdn")
  }

  /**
   * The list and the event `capture_req` is bound to for one page: every
   * accepted request URL, in arrival order, and whether one has arrived.
   */
  class CaptureBuffer {
    var captured: seq<string>
    var gotOne: bool

    /** `got_one` is set exactly once something has been captured. */
    ghost predicate Valid()
      reads this
    {
      gotOne <==> captured != []
    }

    constructor ()
      ensures Valid() && captured == []
    {
      captured := [];
      gotOne := false;
    }

    /** `capture_req`: append an accepted URL and set the flag; ignore any other. */
    method CaptureReq(url: string)
      requires Valid()
      modifies this
      ensures Valid()
      ensures IsStreamRequest(url) ==> captured == old(captured) + [url] && gotOne
      ensures !IsStreamRequest(url) ==> captured == old(captured) && gotOne == old(gotOne)
    {
      if IsStreamRequest(url) {
        captured := captured + [url];
        gotOne := true;
      }
    }

    /**
     * The page's requests reaching `capture_req` one after another: the buffer
     * gains exactly the accepted ones, in order, and the flag is set iff
     * anything has been captured.
     */
    method CaptureAll(requests: seq<string>)
      requires Valid()
      modifies this
      ensures Valid()
      ensures captured == old(captured) + Captured(requests)
      ensures gotOne <==> old(gotOne) || exists i :: 0 <= i < |requests| && IsStreamRequest(requests[i])
    {
      var k := 0;
      while k < |requests|
        invariant 0 <= k <= |requests|
        invariant Valid()
        invariant captured == old(captured) + Captured(requests[..k])
      {
        assert requests[..k + 1][..k] == requests[..k];
        CaptureReq(requests[k]);
        k := k + 1;
      }
      assert requests[..k] == requests;
      CapturedMeaning(requests);
    }
  }

  /** What a buffer holds after the given requests, in order. */
  function Captured(requests: seq<string>): seq<string>
  {
    Filter(requests, IsStreamRequest)
  }

  /**
   * The captured list is exactly the accepted requests, each once, in arrival
   * order.
   */
  lemma CapturedMeaning(requests: seq<string>)
    ensures forall u :: u in Captured(requests) ==> u in requests && IsStreamRequest(u)
    ensures forall i :: 0 <= i < |requests| && IsStreamRequest(requests[i]) ==> requests[i] in Captured(requests)
    ensures Captured(requests) == [] <==> forall i :: 0 <= i < |requests| ==> !IsStreamRequest(requests[i])
    ensures exists idx :: (var c := Captured(requests);
      && Ascending(idx, |requests|) && |idx| == |c|
      && (forall j :: 0 <= j < |idx| ==> c[j] == requests[idx[j]])
      && (forall i :: 0 <= i < |requests| ==> (IsStreamRequest(requests[i]) <==> i in idx)))
  {
    FilterMeaning(requests, IsStreamRequest);
  }

  /**
   * `Network.process_event`'s answer: nothing when the page failed to load,
   * otherwise the first URL captured before the wait ended, if any.
   */
  function ProcessEvent(loaded: bool, requests: seq<string>): (r: Option<string>)
  {
    var c := Captured(requests);
    if loaded && c != [] then Some(c[0]) else None
  }

  /** The first captured URL is the earliest accepted request. */
  lemma CapturedFirst(requests: seq<string>)
    requires Captured(requests) != []
    ensures exists i :: (0 <= i < |requests| && IsStreamRequest(requests[i]) &&
      Captured(requests)[0] == requests[i] &&
      forall j :: 0 <= j < i ==> !IsStreamRequest(requests[j]))
  {
    FilterFirst(requests, IsStreamRequest);
  }

  /**
   * `process_event` resolves a loaded page to its earliest accepted request,
   * and to nothing iff the page did not load or no request was accepted.
   */
  lemma ProcessEventMeaning(loaded: bool, requests: seq<string>)
    ensures ProcessEvent(loaded, requests).None? <==>
      !loaded || forall i :: 0 <= i < |requests| ==> !IsStreamRequest(requests[i])
    ensures ProcessEvent(loaded, requests).Some? ==> exists i :: (0 <= i < |requests| &&
      IsStreamRequest(requests[i]) && ProcessEvent(loaded, requests).value == requests[i] &&
      forall j :: 0 <= j < i ==> !IsStreamRequest(requests[j]))
  {
    CapturedMeaning(requests);
    if loaded && Captured(requests) != [] {
      CapturedFirst(requests);
    }
  }

  /** The last captured URL is the latest accepted request. */
  lemma CapturedLast(requests: seq<string>)
    requires Captured(requests) != []
    ensures exists i :: (0 <= i < |requests| && IsStreamRequest(requests[i]) &&
      Captured(requests)[|Captured(requests)| - 1] == requests[i] &&
      forall j :: i < j < |requests| ==> !IsStreamRequest(requests[j]))
  {
    FilterLast(requests, IsStreamRequest);
  }

  /**
   * The watchfooty and livetvsx variant of `process_event`: the last URL
   * captured. A loaded page resolves to its latest accepted request, and to
   * nothing iff the page did not load or no request was accepted.
   */
  function LastCaptured(loaded: bool, requests: seq<string>): (r: Option<string>)
    ensures r.Some? <==> loaded && exists i :: 0 <= i < |requests| && IsStreamRequest(requests[i])
    ensures r.Some? ==> exists i :: (0 <= i < |requests| && IsStreamRequest(requests[i]) && r.value == requests[i] &&
      forall j :: i < j < |requests| ==> !IsStreamRequest(requests[j]))
    ensures r.Some? ==> IsStreamRequest(r.value) && r.value in requests
  {
    CapturedMeaning(requests);
    var c := Captured(requests);
    if loaded && c != [] then CapturedLast(requests); Some(c[|c| - 1]) else None
  }
}
