/**
 The local e-mail analyser (`analyze_email_local`): suspicious keywords,
 the URLs found in the body (each judged by the URL analyser), and urgent
 wording. URL extraction is the scan `re.findall` performs for the pattern
 `https?://[^\s<>"]+|www\.[^\s<>"]+`.
 */
module EmailAnalysis {
  import opened Text
  import opened Verdict
  import opened UrlAnalysis

  // ---------------------------------------------------------------------
  // URL extraction
  // ---------------------------------------------------------------------

  /** The characters that end a URL token: `\s`, `<`, `>` and `"`. */
  predicate IsDelimiter(c: char)
  {
    IsSpace(c) || c == '<' || c == '>' || c == '"'
  }

  predicate NoDelimiter(t: string)
  {
    forall k :: 0 <= k < |t| ==> !IsDelimiter(t[k])
  }

  /** A string one alternative of the extraction pattern matches in full. */
  predicate IsUrlToken(t: string)
  {
    && NoDelimiter(t)
    && ((StartsWith(t, "https://") && |t| > 8)
        || (StartsWith(t, "http://") && |t| > 7)
        || (StartsWith(t, "www.") && |t| > 4))
  }

  /** Length of the leading run of non-delimiters (the greedy `[^\s<>"]+`). */
  function RunLen(s: string): (n: nat)
    ensures n <= |s|
    ensures NoDelimiter(s[..n])
    ensures n == |s| || IsDelimiter(s[n])
  {
    if |s| == 0 || IsDelimiter(s[0]) then 0 else 1 + RunLen(s[1..])
  }

  /** The literal openings of the two alternatives contain no delimiter. */
  lemma OpeningsHaveNoDelimiter()
    ensures NoDelimiter("https://") && NoDelimiter("http://") && NoDelimiter("www.")
  {
  }

  /** An opening followed by a non-empty run is a token. */
  lemma OpeningThenRun(s: string, p: string)
    requires p == "https://" || p == "http://" || p == "www."
    requires StartsWith(s, p) && RunLen(s[|p|..]) > 0
    ensures IsUrlToken(s[..|p| + RunLen(s[|p|..])])
    ensures var n := |p| + RunLen(s[|p|..]); n == |s| || IsDelimiter(s[n])
  {
    OpeningsHaveNoDelimiter();
    var n := RunLen(s[|p|..]);
    var t := s[..|p| + n];
    assert t == p + s[|p|..][..n];
    assert t[..|p|] == p;
    assert |p| + n < |s| ==> s[|p| + n] == s[|p|..][n];
  }

  /** Length of the match of one alternative (opening `p`, then a non-empty run) at the start of `s`, or 0. */
  function MatchLen(s: string, p: string): (n: nat)
    requires p == "https://" || p == "http://" || p == "www."
    ensures n <= |s|
    ensures n > 0 ==> IsUrlToken(s[..n]) && (n == |s| || IsDelimiter(s[n]))
  {
    if StartsWith(s, p) && RunLen(s[|p|..]) > 0 then
      OpeningThenRun(s, p);
      |p| + RunLen(s[|p|..])
    else
      0
  }

  /**
   Length of the URL token the pattern matches at the start of `s`, or 0.
   The `https` alternative is tried before `http` (the `s?` is greedy), and
   both before `www.`.
   */
  function TokenLen(s: string): (n: nat)
    ensures n <= |s|
    ensures n > 0 ==> IsUrlToken(s[..n]) && (n == |s| || IsDelimiter(s[n]))
  {
    var secure := MatchLen(s, "https://");
    if secure > 0 then secure
    else
      var plain := MatchLen(s, "http://");
      if plain > 0 then plain else MatchLen(s, "www.")
  }

  /** `re.findall`: tokens left to right, resuming after each match. */
  function ExtractUrls(s: string): (urls: seq<string>)
    ensures forall u :: u in urls ==> IsUrlToken(u) && Contains(s, u)
    decreases |s|
  {
    if |s| == 0 then
      []
    else
      var n := TokenLen(s);
      if n > 0 then
        var rest := ExtractUrls(s[n..]);
        SliceContained(s, 0, n);
        forall u | u in rest
          ensures Contains(s, u)
        {
          ContainedInSuffix(s, n, u);
        }
        [s[..n]] + rest
      else
        var rest := ExtractUrls(s[1..]);
        forall u | u in rest
          ensures Contains(s, u)
        {
          ContainedInSuffix(s, 1, u);
        }
        rest
  }

  /** What a suffix contains, the whole string contains. */
  lemma ContainedInSuffix(s: string, n: nat, u: string)
    requires n <= |s|
    requires Contains(s[n..], u)
    ensures Contains(s, u)
  {
    ContainsIffOccurs(s[n..], u);
    var i :| OccursAt(s[n..], u, i);
    assert s[n..][i..i + |u|] == s[n + i..n + i + |u|];
    assert OccursAt(s, u, n + i);
    ContainsIffOccurs(s, u);
  }

  /** A delimiter stops a run: text after it does not change the run. */
  lemma {:induction false} RunLenStopsAtDelimiter(a: string, c: char, b: string)
    requires IsDelimiter(c)
    ensures RunLen(a + [c] + b) == RunLen(a)
    decreases |a|
  {
    if |a| == 0 {
      assert (a + [c] + b)[0] == c;
    } else {
      assert (a + [c] + b)[0] == a[0];
      assert (a + [c] + b)[1..] == a[1..] + [c] + b;
      RunLenStopsAtDelimiter(a[1..], c, b);
    }
  }

  /** A literal without delimiters cannot straddle a delimiter. */
  lemma PrefixBeforeDelimiter(a: string, c: char, b: string, p: string)
    requires IsDelimiter(c) && NoDelimiter(p)
    ensures StartsWith(a + [c] + b, p) <==> StartsWith(a, p)
    ensures |p| <= |a| ==> (a + [c] + b)[|p|..] == a[|p|..] + [c] + b
  {
    var s := a + [c] + b;
    if |p| <= |a| {
      assert s[..|p|] == a[..|p|];
    } else {
      assert s[|a|] == c;
      assert !IsDelimiter(p[|a|]);
    }
  }

  /** One alternative of the pattern matches the same text in `a` and in `a + [c] + b`. */
  lemma MatchLenStopsAtDelimiter(a: string, c: char, b: string, p: string)
    requires IsDelimiter(c)
    requires p == "https://" || p == "http://" || p == "www."
    ensures MatchLen(a + [c] + b, p) == MatchLen(a, p)
  {
    OpeningsHaveNoDelimiter();
    PrefixBeforeDelimiter(a, c, b, p);
    if StartsWith(a, p) {
      RunLenStopsAtDelimiter(a[|p|..], c, b);
    }
  }

  /** The token at the start of `a` is the same when a delimiter follows `a`. */
  lemma TokenLenStopsAtDelimiter(a: string, c: char, b: string)
    requires IsDelimiter(c)
    ensures TokenLen(a + [c] + b) == TokenLen(a)
  {
    MatchLenStopsAtDelimiter(a, c, b, "https://");
    MatchLenStopsAtDelimiter(a, c, b, "http://");
    MatchLenStopsAtDelimiter(a, c, b, "www.");
  }

  /** Cutting `a + [c] + b` inside `a` cuts `a` there. */
  lemma CutInsideLeft(a: string, c: char, b: string, n: nat)
    requires n <= |a|
    ensures (a + [c] + b)[..n] == a[..n]
    ensures (a + [c] + b)[n..] == a[n..] + [c] + b
  {
  }

  /** One step of extraction over `a + [c] + b` when a token starts `a`. */
  lemma ExtractTokenStep(a: string, c: char, b: string)
    requires IsDelimiter(c) && TokenLen(a) > 0
    ensures ExtractUrls(a + [c] + b)
      == [a[..TokenLen(a)]] + ExtractUrls(a[TokenLen(a)..] + [c] + b)
  {
    var n := TokenLen(a);
    TokenLenStopsAtDelimiter(a, c, b);
    CutInsideLeft(a, c, b, n);
  }

  /** One step of extraction over `a + [c] + b` when no token starts a non-empty `a`. */
  lemma ExtractSkipStep(a: string, c: char, b: string)
    requires IsDelimiter(c) && |a| > 0 && TokenLen(a) == 0
    ensures ExtractUrls(a + [c] + b) == ExtractUrls(a[1..] + [c] + b)
  {
    TokenLenStopsAtDelimiter(a, c, b);
    CutInsideLeft(a, c, b, 1);
  }

  lemma ConsAppend<T>(x: T, p: seq<T>, q: seq<T>)
    ensures [x] + (p + q) == ([x] + p) + q
  {
  }

  /** One step of extraction over a non-empty string. */
  lemma ExtractUnfold(s: string)
    requires |s| > 0
    ensures ExtractUrls(s) == if TokenLen(s) > 0 then [s[..TokenLen(s)]] + ExtractUrls(s[TokenLen(s)..])
                              else ExtractUrls(s[1..])
  {
  }

  /** Extraction over a delimiter followed by `b` is extraction over `b`. */
  lemma ExtractAfterDelimiter(c: char, b: string)
    requires IsDelimiter(c)
    ensures ExtractUrls([c] + b) == ExtractUrls(b)
  {
    TokenLenStopsAtDelimiter([], c, b);
    assert [] + [c] + b == [c] + b;
    ExtractUnfold([c] + b);
    assert ([c] + b)[1..] == b;
  }

  /**
   Extraction splits at delimiters: the URLs of `a`, a delimiter, then `b`
   are the URLs of `a` followed by the URLs of `b`.
   */
  lemma {:induction false} ExtractSplitsAtDelimiter(a: string, c: char, b: string)
    requires IsDelimiter(c)
    ensures ExtractUrls(a + [c] + b) == ExtractUrls(a) + ExtractUrls(b)
    decreases |a|
  {
    if |a| == 0 {
      assert a + [c] + b == [c] + b;
      ExtractAfterDelimiter(c, b);
    } else if TokenLen(a) > 0 {
      var n := TokenLen(a);
      ExtractTokenStep(a, c, b);
      ExtractSplitsAtDelimiter(a[n..], c, b);
      ExtractUnfold(a);
      var t, rest, right := a[..n], ExtractUrls(a[n..]), ExtractUrls(b);
      ConsAppend(t, rest, right);
    } else {
      ExtractSkipStep(a, c, b);
      ExtractSplitsAtDelimiter(a[1..], c, b);
      ExtractUnfold(a);
    }
  }

  /** A whole URL token is extracted as exactly itself. */
  lemma ExtractWholeToken(t: string)
    requires IsUrlToken(t)
    ensures ExtractUrls(t) == [t]
  {
    var k := if StartsWith(t, "https://") && |t| > 8 then 8
             else if StartsWith(t, "http://") && |t| > 7 then 7 else 4;
    RunLenOfNoDelimiter(t[k..]);
    assert t[..|t|] == t;
    assert t[|t|..] == [];
  }

  lemma {:induction false} RunLenOfNoDelimiter(s: string)
    requires NoDelimiter(s)
    ensures RunLen(s) == |s|
    decreases |s|
  {
    if |s| > 0 {
      RunLenOfNoDelimiter(s[1..]);
    }
  }

  // ---------------------------------------------------------------------
  // The analyser
  // ---------------------------------------------------------------------

  datatype EmailWarning =
    | SuspiciousKeywords(named: seq<string>)   // the first (at most three) keywords found
    | DangerousUrls(count: nat)                // how many checked URLs were 危険
    | UrgentWording                            // wording that presses for immediate action

  datatype EmailDetail = UrlCount(count: nat)  // how many URLs the body holds

  datatype EmailResult = EmailResult(
    level: Level,
    score: int,
    warnings: seq<EmailWarning>,
    details: seq<EmailDetail>)

  const UrgentWords: seq<string> := ["今すぐ", "直ちに", "24時間以内", "immediately", "urgent"]
  const MaxCheckedUrls: nat := 5
  const MaxNamedKeywords: nat := 3

  function Min(a: int, b: int): int
  {
    if a <= b then a else b
  }

  function Max(a: int, b: int): int
  {
    if a <= b then b else a
  }

  /**
   The keywords, in database order, whose lower-case form occurs in the
   lower-cased body `text`.
   */
  function FoundKeywords(text: string, keywords: seq<string>): (found: seq<string>)
    ensures forall k :: k in found ==> k in keywords && Contains(text, Lower(k))
    ensures forall k :: k in keywords && Contains(text, Lower(k)) ==> k in found
    ensures |found| <= |keywords|
    decreases |keywords|
  {
    if |keywords| == 0 then
      []
    else
      assert forall k :: k in keywords ==> k == keywords[0] || k in keywords[1..];
      (if Contains(text, Lower(keywords[0])) then [keywords[0]] else [])
        + FoundKeywords(text, keywords[1..])
  }

  /** On a single keyword the search keeps it exactly when it is a hit. */
  lemma FoundKeywordsOfOne(text: string, k: string)
    ensures FoundKeywords(text, [k]) == if Contains(text, Lower(k)) then [k] else []
  {
  }

  /**
   The hits come in database order: searching `a + b` gives the hits of `a`
   followed by the hits of `b`, repeats included.
   */
  lemma {:induction false} FoundKeywordsAppend(text: string, a: seq<string>, b: seq<string>)
    ensures FoundKeywords(text, a + b) == FoundKeywords(text, a) + FoundKeywords(text, b)
    decreases |a|
  {
    if |a| == 0 {
      assert a + b == b;
    } else {
      assert (a + b)[0] == a[0];
      assert (a + b)[1..] == a[1..] + b;
      FoundKeywordsAppend(text, a[1..], b);
    }
  }

  /** Some urgent word occurs in the lower-cased body. */
  predicate Urgent(text: string)
  {
    exists w :: w in UrgentWords && Contains(text, w)
  }

  /** Running level, score and 危険 count of the loop over the checked URLs. */
  datatype Tally = Tally(level: Level, score: int, dangerous: nat)

  /** One iteration: a 危険 URL forces 危険/90; a 注意 URL raises anything but 危険 to 注意, score at least 60. */
  function TallyStep(t: Tally, l: Level): Tally
  {
    if l == Dangerous then Tally(Dangerous, 90, t.dangerous + 1)
    else if l == Caution && t.level != Dangerous then Tally(Caution, Max(t.score, 60), t.dangerous)
    else t
  }

  /** The loop over the checked URLs' levels, in order. */
  function TallyUrls(t: Tally, levels: seq<Level>): (r: Tally)
    ensures r.dangerous == t.dangerous + multiset(levels)[Dangerous]
    ensures Dangerous in levels ==> r.level == Dangerous && r.score == 90
    ensures Dangerous !in levels && Caution in levels ==>
      if t.level == Dangerous then r.level == t.level && r.score == t.score
      else r.level == Caution && r.score == Max(t.score, 60)
    ensures Dangerous !in levels && Caution !in levels ==> r.level == t.level && r.score == t.score
    decreases |levels|
  {
    if |levels| == 0 then
      t
    else
      assert levels == [levels[0]] + levels[1..];
      assert forall l :: l in levels <==> l == levels[0] || l in levels[1..];
      TallyUrls(TallyStep(t, levels[0]), levels[1..])
  }

  /** The levels the URL analyser gives the first five extracted URLs. */
  function CheckedLevels(urls: seq<string>, db: UrlDb, parse: Parser, search: Matcher): (levels: seq<Level>)
    ensures |levels| == Min(MaxCheckedUrls, |urls|)
    ensures forall i :: 0 <= i < |levels| ==>
      levels[i] == AnalyzeUrl(urls[i], parse(urls[i]), db, search).level
  {
    var n := Min(MaxCheckedUrls, |urls|);
    seq(n, i requires 0 <= i < n => AnalyzeUrl(urls[i], parse(urls[i]), db, search).level)
  }

  /** URLs after the fifth are never judged: appending more changes nothing. */
  lemma CheckedLevelsIgnoresLaterUrls(urls: seq<string>, more: seq<string>, db: UrlDb, parse: Parser, search: Matcher)
    requires |urls| >= MaxCheckedUrls
    ensures CheckedLevels(urls + more, db, parse, search) == CheckedLevels(urls, db, parse, search)
  {
  }

  /** The keyword rule: any hit gives 注意/50 and one warning naming at most three keywords. */
  function KeywordStep(found: seq<string>): (r: EmailResult)
    ensures r.level in {Safe, Caution} && r.details == []
    ensures r.level == Caution <==> |found| > 0
    ensures r.score == if |found| > 0 then 50 else 10
  {
    if |found| > 0 then
      EmailResult(Caution, 50, [SuspiciousKeywords(found[..Min(MaxNamedKeywords, |found|)])], [])
    else
      EmailResult(Safe, 10, [], [])
  }

  /**
   The URL rule over the levels of the checked URLs: a 危険 URL anywhere
   forces 危険/90 and a 注意 URL can no longer lower it.
   */
  function UrlStep(r0: EmailResult, urlCount: nat, levels: seq<Level>): (r1: EmailResult)
    requires r0.level in {Safe, Caution}
    requires urlCount == 0 ==> levels == []
    ensures r1.level == Dangerous <==> Dangerous in levels
    ensures r1.level == Caution <==> Dangerous !in levels && (Caution in levels || r0.level == Caution)
    ensures r1.level == Safe <==> Dangerous !in levels && Caution !in levels && r0.level == Safe
    ensures r1.score ==
      if Dangerous in levels then 90 else if Caution in levels then Max(r0.score, 60) else r0.score
    ensures r1.warnings ==
      r0.warnings + (if Dangerous in levels then [DangerousUrls(multiset(levels)[Dangerous])] else [])
    ensures r1.details == r0.details + (if urlCount > 0 then [UrlCount(urlCount)] else [])
  {
    if urlCount == 0 then
      r0
    else
      var t := TallyUrls(Tally(r0.level, r0.score, 0), levels);
      EmailResult(t.level, t.score,
                  r0.warnings + (if t.dangerous > 0 then [DangerousUrls(t.dangerous)] else []),
                  r0.details + [UrlCount(urlCount)])
  }

  /** The urgency rule: one warning and 20 more points, never above 100. */
  function UrgencyStep(r1: EmailResult, urgent: bool): (r: EmailResult)
    ensures r.level == r1.level && r.details == r1.details
    ensures urgent ==> r.score == Min(r1.score + 20, 100) && r.warnings == r1.warnings + [UrgentWording]
    ensures !urgent ==> r == r1
  {
    if urgent then r1.(warnings := r1.warnings + [UrgentWording], score := Min(r1.score + 20, 100)) else r1
  }

  /**
   `analyze_email_local`: keywords (注意/50), then the first five URLs (危険/90
   on any 危険 URL, otherwise 注意 and at least 60 on any 注意 URL), then the
   urgency bonus of 20 capped at 100.
   */
  function AnalyzeEmail(content: string, db: UrlDb, parse: Parser, search: Matcher): (r: EmailResult)
    ensures 10 <= r.score <= 100
    ensures
      var text := Lower(content);
      var found := FoundKeywords(text, db.suspiciousKeywords);
      var urls := ExtractUrls(content);
      var levels := CheckedLevels(urls, db, parse, search);
      var base :=
        if Dangerous in levels then 90 else if Caution in levels then 60 else if |found| > 0 then 50 else 10;
      && r.score == (if Urgent(text) then Min(base + 20, 100) else base)
      && (r.level == Dangerous <==> Dangerous in levels)
      && (r.level == Caution <==> Dangerous !in levels && (Caution in levels || |found| > 0))
      && (r.level == Safe <==> Dangerous !in levels && Caution !in levels && |found| == 0)
      && r.details == (if |urls| > 0 then [UrlCount(|urls|)] else [])
      && r.warnings ==
           (if |found| > 0 then [SuspiciousKeywords(found[..Min(MaxNamedKeywords, |found|)])] else [])
           + (if Dangerous in levels then [DangerousUrls(multiset(levels)[Dangerous])] else [])
           + (if Urgent(text) then [UrgentWording] else [])
  {
    var text := Lower(content);
    var found := FoundKeywords(text, db.suspiciousKeywords);
    var urls := ExtractUrls(content);
    var r0 := KeywordStep(found);
    var r1 := UrlStep(r0, |urls|, CheckedLevels(urls, db, parse, search));
    UrgencyStep(r1, Urgent(text))
  }
}
