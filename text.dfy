/**
 * The Python `str` operations the adapters use, on `seq<char>`.
 * Case mapping is ASCII only; whitespace is Python's `str.isspace()` set.
 */
module Text {
  import opened Outcomes

  /** Python's whitespace: what `str.strip()`, `str.split()` and regex `\s` skip. */
  predicate IsSpace(c: char)
  {
    c == ' ' || ('\t' <= c <= '\r') || ('\U{1C}' <= c <= '\U{1F}') ||
    c == '\U{85}' || c == '\U{A0}' || c == '\U{1680}' || ('\U{2000}' <= c <= '\U{200A}') ||
    c == '\U{2028}' || c == '\U{2029}' || c == '\U{202F}' || c == '\U{205F}' || c == '\U{3000}'
  }

  predicate IsDigit(c: char) { '0' <= c <= '9' }

  /** Regex `\w` on ASCII text. */
  predicate IsWordChar(c: char)
  {
    ('a' <= c <= 'z') || ('A' <= c <= 'Z') || IsDigit(c) || c == '_'
  }

  function LowerChar(c: char): char
  {
    if 'A' <= c <= 'Z' then (c as int + 32) as char else c
  }

  function UpperChar(c: char): char
  {
    if 'a' <= c <= 'z' then (c as int - 32) as char else c
  }

  /** `s.lower()` */
  function Lower(s: string): (r: string)
    ensures |r| == |s|
  {
    seq(|s|, i requires 0 <= i < |s| => LowerChar(s[i]))
  }

  /** `s.upper()` */
  function Upper(s: string): (r: string)
    ensures |r| == |s|
  {
    seq(|s|, i requires 0 <= i < |s| => UpperChar(s[i]))
  }

  /** `w.capitalize()`: first character upper case, the rest lower case. */
  function Capitalize(w: string): (r: string)
    ensures |r| == |w|
  {
    if w == [] then [] else [UpperChar(w[0])] + Lower(w[1..])
  }

  /** `s.lstrip()` */
  function StripStart(s: string): (r: string)
    ensures |r| <= |s| && r == s[|s| - |r|..]
    ensures r == [] || !IsSpace(r[0])
    ensures forall i :: 0 <= i < |s| - |r| ==> IsSpace(s[i])
    decreases |s|
  {
    if s != [] && IsSpace(s[0]) then StripStart(s[1..]) else s
  }

  /** `s.rstrip()` */
  function StripEnd(s: string): (r: string)
    ensures |r| <= |s| && r == s[..|r|]
    ensures r == [] || !IsSpace(r[|r| - 1])
    ensures forall i :: |r| <= i < |s| ==> IsSpace(s[i])
    decreases |s|
  {
    if s != [] && IsSpace(s[|s| - 1]) then StripEnd(s[..|s| - 1]) else s
  }

  /** `s.strip()`: the slice of `s` left once whitespace is removed from both ends. */
  function Strip(s: string): (r: string)
    ensures |r| <= |s|
    ensures r == [] || (!IsSpace(r[0]) && !IsSpace(r[|r| - 1]))
  {
    StripEnd(StripStart(s))
  }

  /** `sub` occurs in `s` at position `i`. */
  predicate At(s: string, sub: string, i: nat)
  {
    i + |sub| <= |s| && s[i..i + |sub|] == sub
  }

  /** Two adjacent occurrences make one occurrence of the concatenation. */
  lemma AtConcat(s: string, x: string, y: string, i: nat)
    requires At(s, x, i) && At(s, y, i + |x|)
    ensures At(s, x + y, i)
  {
    assert s[i..i + |x + y|] == s[i..i + |x|] + s[i + |x|..i + |x| + |y|];
  }

  /** The first occurrence of `sub` in `s` at or after `k`. */
  function IndexFrom(s: string, sub: string, k: nat): (r: Option<nat>)
    requires k <= |s|
    ensures r.Some? ==> k <= r.value && At(s, sub, r.value)
    ensures r.Some? ==> forall j :: k <= j < r.value ==> !At(s, sub, j)
    ensures r.None? ==> forall j :: k <= j ==> !At(s, sub, j)
    decreases |s| - k
  {
    if At(s, sub, k) then Some(k)
    else if k == |s| then None
    else IndexFrom(s, sub, k + 1)
  }

  /** `s.find(sub)`, as an option. */
  function IndexOf(s: string, sub: string): Option<nat>
  {
    IndexFrom(s, sub, 0)
  }

  /** `sub in s` */
  predicate Contains(s: string, sub: string)
  {
    IndexOf(s, sub).Some?
  }

  /** `sub in s`, ignoring ASCII case (a regex search with IGNORECASE). */
  predicate ContainsIgnoreCase(s: string, sub: string)
  {
    Contains(Lower(s), Lower(sub))
  }

  lemma ContainsMeaning(s: string, sub: string)
    ensures Contains(s, sub) <==> exists i :: At(s, sub, i)
  {
    if !Contains(s, sub) {
      assert forall j :: 0 <= j ==> !At(s, sub, j);
    }
  }

  /** `s.startswith(p)` */
  predicate StartsWith(s: string, p: string)
  {
    |p| <= |s| && s[..|p|] == p
  }

  /** `s.endswith(p)` */
  predicate EndsWith(s: string, p: string)
  {
    |p| <= |s| && s[|s| - |p|..] == p
  }

  /** `s.split(sep)` for a non-empty separator. */
  function Split(s: string, sep: string): (parts: seq<string>)
    requires sep != []
    ensures |parts| >= 1
    decreases |s|
  {
    match IndexOf(s, sep)
    case None => [s]
    case Some(i) => [s[..i]] + Split(s[i + |sep|..], sep)
  }

  /** `sep.join(parts)` */
  function Join(sep: string, parts: seq<string>): string
    decreases |parts|
  {
    if parts == [] then ""
    else if |parts| == 1 then parts[0]
    else parts[0] + sep + Join(sep, parts[1..])
  }

  /** `s.split(sep)[0]`: the text before the first `sep`. */
  function SplitFirst(s: string, sep: string): string
    requires sep != []
  {
    Split(s, sep)[0]
  }

  /** `s.split(sep)[-1]`: the text after the last `sep`. */
  function SplitLast(s: string, sep: string): string
    requires sep != []
  {
    var parts := Split(s, sep);
    parts[|parts| - 1]
  }

  /** `s.split(sep, 1)` */
  function SplitOnce(s: string, sep: string): (parts: seq<string>)
    requires sep != []
    ensures 1 <= |parts| <= 2
  {
    match IndexOf(s, sep)
    case None => [s]
    case Some(i) => [s[..i], s[i + |sep|..]]
  }

  /** `s.replace(target, repl)` for a non-empty `target`. */
  function Replace(s: string, target: string, repl: string): string
    requires target != []
  {
    Join(repl, Split(s, target))
  }

  /** The index of the first whitespace character at or after `k`, or `|s|`. */
  function WordEnd(s: string, k: nat): (r: nat)
    requires k <= |s|
    ensures k <= r <= |s|
    ensures forall i :: k <= i < r ==> !IsSpace(s[i])
    ensures r < |s| ==> IsSpace(s[r])
    decreases |s| - k
  {
    if k == |s| || IsSpace(s[k]) then k else WordEnd(s, k + 1)
  }

  /** `s.split()`: the maximal runs of non-whitespace characters. */
  function Words(s: string): (ws: seq<string>)
    ensures forall i :: 0 <= i < |ws| ==> ws[i] != []
    decreases |s|
  {
    if s == [] then []
    else if IsSpace(s[0]) then Words(s[1..])
    else
      var n := WordEnd(s, 0);
      [s[..n]] + Words(s[n..])
  }

  function DigitChar(d: nat): (c: char)
    requires d < 10
    ensures IsDigit(c)
  {
    ('0' as int + d) as char
  }

  function DigitValue(c: char): (d: nat)
    requires IsDigit(c)
    ensures d < 10
  {
    c as int - '0' as int
  }

  /** `str(n)` for a natural number. */
  function NatToString(n: nat): (r: string)
    ensures |r| >= 1 && forall i :: 0 <= i < |r| ==> IsDigit(r[i])
  {
    if n < 10 then [DigitChar(n)] else NatToString(n / 10) + [DigitChar(n % 10)]
  }

  /** `str(i)` for an integer. */
  function IntToString(i: int): string
  {
    if i < 0 then "-" + NatToString(-i) else NatToString(i)
  }

  predicate AllDigits(s: string)
  {
    forall i :: 0 <= i < |s| ==> IsDigit(s[i])
  }

  /** The value of a string of decimal digits. */
  function DigitsValue(s: string): nat
    requires AllDigits(s)
  {
    if s == [] then 0 else DigitsValue(s[..|s| - 1]) * 10 + DigitValue(s[|s| - 1])
  }

  /**
   * The digits `int()` accepts after the sign: one or more ASCII digits, where
   * a single underscore may separate two digits.
   */
  predicate DigitGroups(s: string)
  {
    && s != [] && IsDigit(s[0]) && IsDigit(s[|s| - 1])
    && forall i :: 0 <= i < |s| && !IsDigit(s[i]) ==> s[i] == '_' && i + 1 < |s| && IsDigit(s[i + 1])
  }

  predicate NotUnderscore(c: char)
  {
    c != '_'
  }

  /** Dropping the underscores of digit groups leaves digits only. */
  lemma GroupsDigits(s: string)
    requires DigitGroups(s)
    ensures AllDigits(Filter(s, NotUnderscore))
  {
    var d := Filter(s, NotUnderscore);
    FilterSound(s, NotUnderscore);
    forall i | 0 <= i < |d| ensures IsDigit(d[i]) {
      assert d[i] in d;
      var j :| 0 <= j < |s| && s[j] == d[i];
    }
  }

  /**
   * `int(s)` in base 10: whitespace around the text is ignored, then comes an
   * optional '+' or '-', then digit groups whose underscores are dropped;
   * anything else raises `ValueError`.
   */
  function ParseInt(s: string): Result<int>
  {
    ParseSigned(Strip(s))
  }

  /** The text after an optional leading '+' or '-'. */
  function Unsigned(t: string): string
  {
    if t != [] && (t[0] == '-' || t[0] == '+') then t[1..] else t
  }

  /** `int()` on text already stripped of surrounding whitespace. */
  function ParseSigned(t: string): Result<int>
  {
    var body := Unsigned(t);
    if DigitGroups(body) then
      GroupsDigits(body);
      var v := DigitsValue(Filter(body, NotUnderscore));
      Ok(if t != [] && t[0] == '-' then 0 - v else v)
    else Err(ValueError)
  }

  /** Text that neither starts nor ends with whitespace is its own strip. */
  lemma StripUnchanged(s: string)
    requires s == [] || (!IsSpace(s[0]) && !IsSpace(s[|s| - 1]))
    ensures Strip(s) == s
  {
  }

  /** Printing a number and reading it back gives the number. */
  lemma {:induction false} NatToStringValue(n: nat)
    ensures DigitsValue(NatToString(n)) == n
  {
    if n >= 10 {
      var r := NatToString(n);
      NatToStringValue(n / 10);
      assert r[..|r| - 1] == NatToString(n / 10);
    }
  }

  /** Digits read back as their value, whatever surrounds them in `int()`'s grammar. */
  lemma ReadDigits(t: string)
    requires t != [] && AllDigits(t)
    ensures DigitGroups(t) && Filter(t, NotUnderscore) == t
  {
    FilterAll(t, NotUnderscore);
  }

  /** An optional minus sign and digits read as the (negated) value of the digits. */
  lemma ParseDigits(neg: bool, t: string)
    requires t != [] && AllDigits(t)
    ensures ParseInt((if neg then "-" else "") + t) == Ok(if neg then 0 - DigitsValue(t) else DigitsValue(t))
  {
    var s := (if neg then "-" else "") + t;
    assert IsDigit(t[0]) && IsDigit(t[|t| - 1]);
    assert s[0] == (if neg then '-' else t[0]) && s[|s| - 1] == t[|t| - 1];
    StripUnchanged(s);
    SignedDigits(neg, t);
  }

  lemma SignedDigits(neg: bool, t: string)
    requires t != [] && AllDigits(t)
    ensures ParseSigned((if neg then "-" else "") + t) == Ok(if neg then 0 - DigitsValue(t) else DigitsValue(t))
  {
    var s := (if neg then "-" else "") + t;
    ReadDigits(t);
    if neg {
      assert s[0] == '-' && s[1..] == t;
    } else {
      assert s == t && IsDigit(t[0]);
      assert !(t[0] == '-' || t[0] == '+');
    }
    assert ParseSigned(s) == Ok(if neg then 0 - DigitsValue(Filter(t, NotUnderscore)) else DigitsValue(Filter(t, NotUnderscore)));
  }

  lemma IntToStringRoundTrip(i: int)
    ensures ParseInt(IntToString(i)) == Ok(i)
  {
    var t := NatToString(if i < 0 then -i else i);
    NatToStringValue(if i < 0 then -i else i);
    ParseDigits(i < 0, t);
    assert IntToString(i) == (if i < 0 then "-" else "") + t;
  }

  lemma {:induction false} StripStartSpaces(pre: string, x: string)
    requires forall i :: 0 <= i < |pre| ==> IsSpace(pre[i])
    requires x == [] || !IsSpace(x[0])
    ensures StripStart(pre + x) == x
    decreases |pre|
  {
    if pre == [] {
      assert pre + x == x;
    } else {
      assert (pre + x)[0] == pre[0] && (pre + x)[1..] == pre[1..] + x;
      StripStartSpaces(pre[1..], x);
    }
  }

  lemma {:induction false} StripEndSpaces(x: string, post: string)
    requires forall i :: 0 <= i < |post| ==> IsSpace(post[i])
    requires x == [] || !IsSpace(x[|x| - 1])
    ensures StripEnd(x + post) == x
    decreases |post|
  {
    if post == [] {
      assert x + post == x;
    } else {
      var init := post[..|post| - 1];
      assert (x + post)[|x + post| - 1] == post[|post| - 1] && (x + post)[..|x + post| - 1] == x + init;
      StripEndSpaces(x, init);
    }
  }

  /** Stripping removes exactly the whitespace put around a text. */
  lemma StripPadded(pre: string, t: string, post: string)
    requires forall i :: 0 <= i < |pre| ==> IsSpace(pre[i])
    requires forall i :: 0 <= i < |post| ==> IsSpace(post[i])
    requires t != [] && !IsSpace(t[0]) && !IsSpace(t[|t| - 1])
    ensures Strip(pre + t + post) == t
  {
    var x := t + post;
    assert pre + t + post == pre + x;
    assert x[0] == t[0];
    StripStartSpaces(pre, x);
    StripEndSpaces(t, post);
    assert Strip(pre + x) == StripEnd(x);
  }

  /** `int()` ignores whitespace around the digits. */
  lemma ParseIntPadded(pre: string, t: string, post: string)
    requires forall i :: 0 <= i < |pre| ==> IsSpace(pre[i])
    requires forall i :: 0 <= i < |post| ==> IsSpace(post[i])
    requires t != [] && AllDigits(t)
    ensures ParseInt(pre + t + post) == Ok(DigitsValue(t))
  {
    assert IsDigit(t[0]) && IsDigit(t[|t| - 1]);
    StripPadded(pre, t, post);
    SignedDigits(false, t);
    assert "" + t == t;
  }

  /** Digit groups followed by an underscore and more digits are digit groups. */
  lemma GroupsSnoc(x: string, y: string)
    requires DigitGroups(x) && y != [] && AllDigits(y)
    ensures DigitGroups(x + "_" + y)
  {
    var z := x + "_" + y;
    forall i | 0 <= i < |z| && !IsDigit(z[i]) ensures z[i] == '_' && i + 1 < |z| && IsDigit(z[i + 1]) {
      if i < |x| {
        assert z[i] == x[i];
        if i + 1 < |x| {
          assert z[i + 1] == x[i + 1];
        }
      } else {
        assert i == |x|;
        assert z[i + 1] == y[0];
      }
    }
    assert z[0] == x[0] && z[|z| - 1] == y[|y| - 1];
  }

  /**
   * Non-empty digit strings joined by single underscores are digit groups,
   * and dropping the underscores gives the digits back.
   */
  lemma {:induction false} GroupsJoin(gs: seq<string>)
    requires |gs| >= 1 && forall k :: 0 <= k < |gs| ==> gs[k] != [] && AllDigits(gs[k])
    ensures DigitGroups(Join("_", gs)) && Filter(Join("_", gs), NotUnderscore) == Concat(gs)
    decreases |gs|
  {
    var last := gs[|gs| - 1];
    if |gs| == 1 {
      ReadDigits(last);
      assert gs[..0] == [];
    } else {
      var init := gs[..|gs| - 1];
      var j := Join("_", init);
      GroupsJoin(init);
      assert gs == init + [last];
      JoinSnoc("_", init, last);
      GroupsSnoc(j, last);
      FilterAppend(j + "_", last, NotUnderscore);
      FilterAppend(j, "_", NotUnderscore);
      assert Filter("_", NotUnderscore) == [] by {
        assert "_"[..0] == [];
      }
      FilterAll(last, NotUnderscore);
      assert Filter(j + "_" + last, NotUnderscore) == Concat(init) + last;
      assert Concat(gs) == Concat(init) + last;
    }
  }

  /** A sign before digit groups: the signed value of the digits. */
  /** `v` under the sign `int()` read in front of it: "-" negates, "" and "+" keep it. */
  function ApplySign(sign: string, v: int): int
  {
    if sign == "-" then 0 - v else v
  }

  lemma SignedGroups(sign: string, body: string)
    requires sign == "" || sign == "+" || sign == "-"
    requires DigitGroups(body)
    ensures AllDigits(Filter(body, NotUnderscore))
    ensures ParseSigned(sign + body) ==
      Ok(ApplySign(sign, DigitsValue(Filter(body, NotUnderscore))))
  {
    GroupsDigits(body);
    var t := sign + body;
    if sign == "" {
      assert t == body;
      assert !(t[0] == '-' || t[0] == '+');
    } else {
      assert t[0] == sign[0] && t[1..] == body;
    }
    assert Unsigned(t) == body;
  }

  /**
   * `int()` accepts an optional sign and digit groups joined by single
   * underscores, and reads them as the signed value of all their digits.
   */
  lemma ParseIntSignAndGroups(sign: string, gs: seq<string>)
    requires sign == "" || sign == "+" || sign == "-"
    requires |gs| >= 1 && forall k :: 0 <= k < |gs| ==> gs[k] != [] && AllDigits(gs[k])
    ensures AllDigits(Concat(gs))
    ensures ParseInt(sign + Join("_", gs)) ==
      Ok(ApplySign(sign, DigitsValue(Concat(gs))))
  {
    var body := Join("_", gs);
    GroupsJoin(gs);
    GroupsDigits(body);
    ParseGroups(sign, body, Concat(gs));
  }

  /** `int()` of a sign and digit groups, with nothing around them to strip. */
  lemma ParseGroups(sign: string, body: string, digits: string)
    requires sign == "" || sign == "+" || sign == "-"
    requires DigitGroups(body) && Filter(body, NotUnderscore) == digits && AllDigits(digits)
    ensures ParseInt(sign + body) == Ok(ApplySign(sign, DigitsValue(digits)))
  {
    var s := sign + body;
    assert !IsSpace(s[0]) by {
      if sign == "" { assert s[0] == body[0]; } else { assert s[0] == sign[0]; }
    }
    assert !IsSpace(s[|s| - 1]) by {
      assert s[|s| - 1] == body[|body| - 1];
    }
    StripUnchanged(s);
    assert ParseInt(s) == ParseSigned(s);
    SignedGroups(sign, body);
  }

  /**
   * `int()` on stripped text raises `ValueError` exactly when the text after
   * the sign is empty, starts or ends with '_', holds "__", or holds a
   * character that is neither a digit nor '_'.
   */
  lemma SignedRejects(t: string)
    ensures ParseSigned(t).Err? ==> ParseSigned(t).error == ValueError
    ensures var body := Unsigned(t);
      ParseSigned(t).Err? <==>
        (|| body == [] || body[0] == '_' || body[|body| - 1] == '_'
         || (exists i :: 0 <= i < |body| - 1 && body[i] == '_' && body[i + 1] == '_')
         || (exists i :: 0 <= i < |body| && !IsDigit(body[i]) && body[i] != '_'))
  {
    var body := Unsigned(t);
    if body != [] && body[0] != '_' && body[|body| - 1] != '_'
       && (forall i :: 0 <= i < |body| - 1 && body[i] == '_' ==> body[i + 1] != '_')
       && (forall i :: 0 <= i < |body| && !IsDigit(body[i]) ==> body[i] == '_') {
      forall i | 0 <= i < |body| && !IsDigit(body[i]) ensures body[i] == '_' && i + 1 < |body| && IsDigit(body[i + 1]) {
        assert i != |body| - 1;
        assert body[i + 1] != '_';
      }
      assert DigitGroups(body);
    }
  }

  /**
   * `int()` raises `ValueError` exactly when, after the whitespace and the
   * sign, the text is empty, starts or ends with '_', holds "__", or holds a
   * character that is neither a digit nor '_'.
   */
  lemma ParseIntRejects(s: string)
    ensures ParseInt(s).Err? ==> ParseInt(s).error == ValueError
    ensures var body := Unsigned(Strip(s));
      ParseInt(s).Err? <==>
        (|| body == [] || body[0] == '_' || body[|body| - 1] == '_'
         || (exists i :: 0 <= i < |body| - 1 && body[i] == '_' && body[i + 1] == '_')
         || (exists i :: 0 <= i < |body| && !IsDigit(body[i]) && body[i] != '_'))
  {
    SignedRejects(Strip(s));
  }

  /** Two different numbers print differently. */
  lemma NatToStringInjective(m: nat, n: nat)
    requires m != n
    ensures NatToString(m) != NatToString(n)
  {
    NatToStringValue(m);
    NatToStringValue(n);
  }

  lemma JoinCons(sep: string, a: string, rest: seq<string>)
    requires |rest| >= 1
    ensures Join(sep, [a] + rest) == a + sep + Join(sep, rest)
  {
    assert ([a] + rest)[1..] == rest;
  }

  /** Joining with one more part at the end. */
  lemma {:induction false} JoinSnoc(sep: string, init: seq<string>, last: string)
    requires |init| >= 1
    ensures Join(sep, init + [last]) == Join(sep, init) + sep + last
    decreases |init|
  {
    if |init| == 1 {
      assert init + [last] == [init[0], last];
      assert [init[0], last][1..] == [last];
    } else {
      JoinSnoc(sep, init[1..], last);
      assert (init + [last])[1..] == init[1..] + [last];
    }
  }

  /** A text containing the separator splits into at least two parts. */
  lemma SplitTwo(s: string, sep: string, i: nat)
    requires sep != [] && At(s, sep, i)
    ensures |Split(s, sep)| >= 2
  {
    assert IndexOf(s, sep).Some?;
  }

  /** A split at the first occurrence `i` of the separator. */
  /** The first piece of a split, when the separator occurs. */
  lemma SplitUnfold(s: string, sep: string, i: nat)
    requires sep != [] && IndexOf(s, sep) == Some(i)
    ensures Split(s, sep) == [s[..i]] + Split(s[i + |sep|..], sep)
  {
  }

  lemma SplitCons(s: string, sep: string, i: nat)
    requires sep != [] && IndexOf(s, sep) == Some(i)
    ensures Split(s, sep) == [s[..i]] + Split(s[i + |sep|..], sep)
    ensures s == s[..i] + sep + s[i + |sep|..]
  {
    assert s[i..i + |sep|] == sep;
    assert s == s[..i] + s[i..i + |sep|] + s[i + |sep|..];
  }

  /** Joining the pieces of a split with the separator gives back the text. */
  lemma {:induction false} JoinSplit(s: string, sep: string)
    requires sep != []
    ensures Join(sep, Split(s, sep)) == s
    decreases |s|
  {
    match IndexOf(s, sep)
    case None =>
    case Some(i) =>
      var rest := s[i + |sep|..];
      JoinSplit(rest, sep);
      SplitCons(s, sep, i);
      JoinCons(sep, s[..i], Split(rest, sep));
  }

  /** No piece of a split contains the separator. */
  lemma {:induction false} SplitPiecesFree(s: string, sep: string)
    requires sep != []
    ensures forall k :: 0 <= k < |Split(s, sep)| ==> !Contains(Split(s, sep)[k], sep)
    decreases |s|
  {
    match IndexOf(s, sep)
    case None =>
      ContainsMeaning(s, sep);
    case Some(i) =>
      var rest := s[i + |sep|..];
      SplitPiecesFree(rest, sep);
      var head := s[..i];
      ContainsMeaning(head, sep);
      if Contains(head, sep) {
        var j: nat :| At(head, sep, j);
        assert s[j..j + |sep|] == head[j..j + |sep|];
        assert At(s, sep, j);
        assert false;
      }
      var parts := Split(s, sep);
      assert parts[1..] == Split(rest, sep);
      forall k | 0 <= k < |parts|
        ensures !Contains(parts[k], sep)
      {
        if k > 0 { assert parts[k] == Split(rest, sep)[k - 1]; }
      }
  }

  /**
   * `s.split(sep)[-1]` is the suffix of `s` after the last `sep`: it does not
   * contain `sep`, and it is all of `s` or preceded by `sep`.
   */
  lemma SplitLastMeaning(s: string, sep: string)
    requires sep != []
    ensures EndsWith(s, SplitLast(s, sep))
    ensures !Contains(SplitLast(s, sep), sep)
    ensures SplitLast(s, sep) == s || EndsWith(s, sep + SplitLast(s, sep))
    ensures !Contains(s, sep) ==> SplitLast(s, sep) == s
  {
    SplitPiecesFree(s, sep);
    SplitLastSuffix(s, sep);
  }

  lemma {:induction false} SplitLastSuffix(s: string, sep: string)
    requires sep != []
    ensures EndsWith(s, SplitLast(s, sep))
    ensures SplitLast(s, sep) == s || EndsWith(s, sep + SplitLast(s, sep))
    ensures !Contains(s, sep) ==> SplitLast(s, sep) == s
    decreases |s|
  {
    match IndexOf(s, sep)
    case None =>
    case Some(i) =>
      var rest := s[i + |sep|..];
      SplitLastSuffix(rest, sep);
      var last := SplitLastOfCons(s, sep, i);
      SplitCons(s, sep, i);
      var pre := s[..i] + sep;
      EndsWithExtend(pre, rest, last);
      if last != rest {
        EndsWithExtend(pre, rest, sep + last);
      } else {
        EndsWithSelf(pre, rest, sep);
      }
  }

  lemma SplitLastOfCons(s: string, sep: string, i: nat) returns (last: string)
    requires sep != [] && IndexOf(s, sep) == Some(i)
    ensures last == SplitLast(s, sep) == SplitLast(s[i + |sep|..], sep)
  {
    SplitUnfold(s, sep, i);
    var tail := Split(s[i + |sep|..], sep);
    last := tail[|tail| - 1];
  }

  lemma EndsWithSelf(pre: string, s: string, sep: string)
    requires EndsWith(pre, sep)
    ensures EndsWith(pre + s, sep + s)
  {
    assert (pre + s)[|pre + s| - |sep + s|..] == pre[|pre| - |sep|..] + s;
  }

  lemma EndsWithExtend(pre: string, s: string, t: string)
    requires EndsWith(s, t)
    ensures EndsWith(pre + s, t)
  {
    assert (pre + s)[|pre + s| - |t|..] == s[|s| - |t|..];
  }

  /** `s.split(sep)[0]` is `s` up to the first `sep`, or all of `s`. */
  lemma SplitFirstMeaning(s: string, sep: string)
    requires sep != []
    ensures IndexOf(s, sep).None? ==> SplitFirst(s, sep) == s
    ensures IndexOf(s, sep).Some? ==> SplitFirst(s, sep) == s[..IndexOf(s, sep).value]
  {
  }

  lemma {:induction false} JoinLength(sep: string, s: string, target: string)
    requires target != [] && |sep| == |target|
    ensures |Join(sep, Split(s, target))| == |s|
    decreases |s|
  {
    match IndexOf(s, target)
    case None =>
    case Some(i) =>
      var rest := s[i + |target|..];
      JoinLength(sep, rest, target);
      SplitCons(s, target, i);
      JoinCons(sep, s[..i], Split(rest, target));
  }

  /** Replacing a substring by one of the same length keeps the length. */
  lemma ReplaceKeepsLength(s: string, target: string, repl: string)
    requires target != [] && |target| == |repl|
    ensures |Replace(s, target, repl)| == |s|
  {
    JoinLength(repl, s, target);
  }

  /** Replacing something that does not occur changes nothing. */
  lemma ReplaceAbsent(s: string, target: string, repl: string)
    requires target != []
    ensures !Contains(s, target) ==> Replace(s, target, repl) == s
  {
  }

  predicate SpaceFree(w: string)
  {
    forall i :: 0 <= i < |w| ==> !IsSpace(w[i])
  }

  /** Every word `split()` returns is a non-empty run without whitespace. */
  lemma {:induction false} WordsSpaceFree(s: string)
    ensures forall i :: 0 <= i < |Words(s)| ==> SpaceFree(Words(s)[i])
    decreases |s|
  {
    if s != [] {
      if IsSpace(s[0]) {
        WordsSpaceFree(s[1..]);
      } else {
        var n := WordEnd(s, 0);
        WordsSpaceFree(s[n..]);
        assert Words(s) == [s[..n]] + Words(s[n..]);
      }
    }
  }

  /** Splitting words joined by single spaces gives the words back. */
  lemma {:induction false} WordsJoin(ws: seq<string>)
    requires forall i :: 0 <= i < |ws| ==> ws[i] != [] && SpaceFree(ws[i])
    ensures Words(Join(" ", ws)) == ws
    decreases |ws|
  {
    if ws != [] {
      var w := ws[0];
      var s := Join(" ", ws);
      if |ws| == 1 {
        assert s == w;
        var n := WordEnd(s, 0);
        assert n == |w|;
        assert s[..n] == w;
        assert s[n..] == [];
        assert Words(s) == [w] + Words([]);
      } else {
        var rest := ws[1..];
        JoinCons(" ", w, rest);
        WordsJoin(rest);
        var j := Join(" ", rest);
        assert s == w + (" " + j);
        var n := WordEnd(s, 0);
        assert s[|w|] == ' ';
        assert n == |w|;
        assert s[..n] == w;
        assert s[n..] == " " + j;
        assert (" " + j)[1..] == j;
        assert Words(s[n..]) == Words(j);
        assert ws == [w] + rest;
      }
    }
  }

  lemma CapitalizeKeepsWord(w: string)
    requires w != [] && SpaceFree(w)
    ensures Capitalize(w) != [] && SpaceFree(Capitalize(w))
  {
  }

  /** Capitalising twice is capitalising once; so is upper-casing. */
  lemma CaseIdempotent(w: string)
    ensures Capitalize(Capitalize(w)) == Capitalize(w)
    ensures Upper(Upper(w)) == Upper(w)
  {
    if w != [] {
      assert Capitalize(w)[1..] == Lower(w[1..]);
      assert Lower(Lower(w[1..])) == Lower(w[1..]);
    }
  }
}
