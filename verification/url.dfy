/**
 The local URL analyser (`analyze_url_local`). Parsing by Python's `urlparse`
 is not modelled: the analyser receives its outcome, either the scheme, the
 network location and the path, or the message of the exception it raised.
 Regular-expression search of `dangerous_patterns` is the abstract `Matcher`.
 */
module UrlAnalysis {
  import opened Text
  import opened Verdict

  /** The URL half of the threat database: substrings of known scam hosts,
      suspicious e-mail phrases, and regular expressions (as source text). */
  datatype UrlDb = UrlDb(
    dangerousDomains: seq<string>,
    suspiciousKeywords: seq<string>,
    dangerousPatterns: seq<string>)

  /** What `urlparse(url)` produced: its parts, or the text of its exception. */
  datatype Parse =
    | Parsed(scheme: string, netloc: string, path: string)
    | ParseFailed(reason: string)

  type Parser = string -> Parse

  /** `re.search(pattern, text)` found a match. */
  type Matcher = (string, string) -> bool

  datatype UrlWarning =
    | InvalidUrl            // not a valid URL: the host is empty
    | KnownScamSite         // the host contains a known scam domain
    | SuspiciousPattern     // a dangerous pattern matched the URL
    | NotEncrypted          // the scheme is plain http
    | ShortLink             // the host contains a URL-shortener domain (informational)
    | ParseError(reason: string)

  datatype UrlDetail =
    | DomainDetail(domain: string)
    | ProtocolDetail(scheme: string)
    | PathDetail(path: string)

  datatype UrlResult = UrlResult(
    url: string,
    level: Level,
    score: int,
    warnings: seq<UrlWarning>,
    details: seq<UrlDetail>)

  /** The shortener hosts whose presence adds an informational note. */
  const ShortDomains: seq<string> := ["bit.ly", "tinyurl.com", "t.co", "goo.gl"]

  /** Python's `any(d in host for d in needles)`. */
  predicate ContainsAny(host: string, needles: seq<string>)
  {
    exists d :: d in needles && Contains(host, d)
  }

  /** Some pattern of the list matches the URL. */
  predicate AnyPatternMatches(patterns: seq<string>, url: string, search: Matcher)
  {
    exists p :: p in patterns && search(p, url)
  }

  /** The state of a result before any rule ran: 安全 with score 10. */
  function Fresh(url: string): UrlResult
  {
    UrlResult(url, Safe, 10, [], [])
  }

  /** A host containing a known scam domain is 危険 with score 95. */
  function DomainStep(r: UrlResult, domain: string, db: UrlDb): (r': UrlResult)
    ensures ContainsAny(domain, db.dangerousDomains) ==>
      r'.level == Dangerous && r'.score == 95 && r'.warnings == r.warnings + [KnownScamSite]
    ensures !ContainsAny(domain, db.dangerousDomains) ==> r' == r
    ensures r'.url == r.url && r'.details == r.details
  {
    if ContainsAny(domain, db.dangerousDomains) then
      r.(level := Dangerous, score := 95, warnings := r.warnings + [KnownScamSite])
    else
      r
  }

  /**
   The pattern loop: the first matching pattern escalates 安全 to 注意 with
   score 60, adds one warning and stops the loop.
   */
  function PatternStep(r: UrlResult, patterns: seq<string>, search: Matcher): (r': UrlResult)
    ensures AnyPatternMatches(patterns, r.url, search) ==>
      && r'.level == RaiseToCaution(r.level)
      && r'.score == (if r.level == Safe then 60 else r.score)
      && r'.warnings == r.warnings + [SuspiciousPattern]
    ensures !AnyPatternMatches(patterns, r.url, search) ==> r' == r
    ensures r'.url == r.url && r'.details == r.details
    decreases |patterns|
  {
    if |patterns| == 0 then
      r
    else if search(patterns[0], r.url) then
      r.(level := RaiseToCaution(r.level),
         score := if r.level == Safe then 60 else r.score,
         warnings := r.warnings + [SuspiciousPattern])
    else
      assert forall p :: p in patterns[1..] ==> p in patterns;
      assert forall p :: p in patterns ==> p == patterns[0] || p in patterns[1..];
      PatternStep(r, patterns[1..], search)
  }

  /** Plain http adds a warning and escalates 安全 to 注意 with score 40. */
  function SchemeStep(r: UrlResult, scheme: string): (r': UrlResult)
    ensures scheme == "http" ==>
      && r'.level == RaiseToCaution(r.level)
      && r'.score == (if r.level == Safe then 40 else r.score)
      && r'.warnings == r.warnings + [NotEncrypted]
    ensures scheme != "http" ==> r' == r
    ensures r'.url == r.url && r'.details == r.details
  {
    if scheme == "http" then
      r.(level := RaiseToCaution(r.level),
         score := if r.level == Safe then 40 else r.score,
         warnings := r.warnings + [NotEncrypted])
    else
      r
  }

  /** The shortener note never changes the level or the score. */
  function ShortLinkStep(r: UrlResult, domain: string): (r': UrlResult)
    ensures r'.level == r.level && r'.score == r.score && r'.details == r.details
    ensures r'.warnings == r.warnings + (if ContainsAny(domain, ShortDomains) then [ShortLink] else [])
  {
    if ContainsAny(domain, ShortDomains) then r.(warnings := r.warnings + [ShortLink]) else r
  }

  /** The path shown in the details: an empty path is shown as `/`. */
  function ShownPath(path: string): string
  {
    if path == "" then "/" else path
  }

  /**
   `analyze_url_local`: the empty-host short-circuit, then the domain,
   pattern, http and shortener rules in that order, then three detail lines.
   */
  function AnalyzeUrl(url: string, parse: Parse, db: UrlDb, search: Matcher): (r: UrlResult)
    ensures r.url == url
    ensures r.level == Error <==> parse.ParseFailed? || parse.netloc == ""
    ensures parse.ParseFailed? ==>
      r.score == 0 && r.warnings == [ParseError(parse.reason)] && r.details == []
    ensures parse.Parsed? && parse.netloc == "" ==>
      r.score == 0 && r.warnings == [InvalidUrl] && r.details == []
    ensures parse.Parsed? && parse.netloc != "" ==>
      var domain := Lower(parse.netloc);
      var known := ContainsAny(domain, db.dangerousDomains);
      var pattern := AnyPatternMatches(db.dangerousPatterns, url, search);
      var http := parse.scheme == "http";
      && (r.level == Dangerous <==> known)
      && (r.level == Caution <==> !known && (pattern || http))
      && (r.level == Safe <==> !known && !pattern && !http)
      && r.score == (if known then 95 else if pattern then 60 else if http then 40 else 10)
      && r.warnings ==
           (if known then [KnownScamSite] else [])
           + (if pattern then [SuspiciousPattern] else [])
           + (if http then [NotEncrypted] else [])
           + (if ContainsAny(domain, ShortDomains) then [ShortLink] else [])
      && r.details == [DomainDetail(domain), ProtocolDetail(parse.scheme), PathDetail(ShownPath(parse.path))]
    ensures r.level in {Safe, Caution, Dangerous, Error}
    ensures r.level == Safe ==> r.score == 10
    ensures r.level == Caution ==> r.score == 40 || r.score == 60
    ensures r.level == Dangerous ==> r.score == 95
  {
    match parse
    case ParseFailed(reason) =>
      UrlResult(url, Error, 0, [ParseError(reason)], [])
    case Parsed(scheme, netloc, path) =>
      var domain := Lower(netloc);
      if domain == "" then
        UrlResult(url, Error, 0, [InvalidUrl], [])
      else
        var r1 := DomainStep(Fresh(url), domain, db);
        var r2 := PatternStep(r1, db.dangerousPatterns, search);
        var r3 := SchemeStep(r2, scheme);
        var r4 := ShortLinkStep(r3, domain);
        r4.(details := r4.details + [DomainDetail(domain), ProtocolDetail(scheme), PathDetail(ShownPath(path))])
  }

  /** How many times a warning occurs in a list of warnings. */
  function Occurrences(ws: seq<UrlWarning>, w: UrlWarning): nat
  {
    if |ws| == 0 then 0 else (if ws[0] == w then 1 else 0) + Occurrences(ws[1..], w)
  }

  lemma {:induction false} OccurrencesAppend(a: seq<UrlWarning>, b: seq<UrlWarning>, w: UrlWarning)
    ensures Occurrences(a + b, w) == Occurrences(a, w) + Occurrences(b, w)
    decreases |a|
  {
    if |a| == 0 {
      assert a + b == b;
    } else {
      assert (a + b)[1..] == a[1..] + b;
      OccurrencesAppend(a[1..], b, w);
    }
  }

  /** A one-element list holds a warning once when it is that warning. */
  lemma OccurrencesOfOne(x: UrlWarning, w: UrlWarning)
    ensures Occurrences([x], w) == if x == w then 1 else 0
  {
    assert [x][1..] == [];
  }

  /**
   The `break` after the first matching pattern: whatever the patterns and
   the URL, a result names the suspicious-pattern warning at most once, and
   names it exactly when some pattern matches a URL with a non-empty host.
   */
  lemma AtMostOnePatternWarning(url: string, parse: Parse, db: UrlDb, search: Matcher)
    ensures var r := AnalyzeUrl(url, parse, db, search);
      && Occurrences(r.warnings, SuspiciousPattern) <= 1
      && (Occurrences(r.warnings, SuspiciousPattern) == 1 <==>
            parse.Parsed? && parse.netloc != "" && AnyPatternMatches(db.dangerousPatterns, url, search))
  {
    var r := AnalyzeUrl(url, parse, db, search);
    if parse.Parsed? && parse.netloc != "" {
      var domain := Lower(parse.netloc);
      var known := ContainsAny(domain, db.dangerousDomains);
      var pattern := AnyPatternMatches(db.dangerousPatterns, url, search);
      var http := parse.scheme == "http";
      var a: seq<UrlWarning> := if known then [KnownScamSite] else [];
      var b: seq<UrlWarning> := if pattern then [SuspiciousPattern] else [];
      var c: seq<UrlWarning> := if http then [NotEncrypted] else [];
      var d: seq<UrlWarning> := if ContainsAny(domain, ShortDomains) then [ShortLink] else [];
      assert r.warnings == a + b + c + d;
      OccurrencesAppend(a + b + c, d, SuspiciousPattern);
      OccurrencesAppend(a + b, c, SuspiciousPattern);
      OccurrencesAppend(a, b, SuspiciousPattern);
      OccurrencesOfOne(KnownScamSite, SuspiciousPattern);
      OccurrencesOfOne(SuspiciousPattern, SuspiciousPattern);
      OccurrencesOfOne(NotEncrypted, SuspiciousPattern);
      OccurrencesOfOne(ShortLink, SuspiciousPattern);
      assert Occurrences(a, SuspiciousPattern) == 0;
      assert Occurrences(b, SuspiciousPattern) == (if pattern then 1 else 0);
      assert Occurrences(c, SuspiciousPattern) == 0;
      assert Occurrences(d, SuspiciousPattern) == 0;
    } else {
      if parse.ParseFailed? {
        OccurrencesOfOne(ParseError(parse.reason), SuspiciousPattern);
      } else {
        OccurrencesOfOne(InvalidUrl, SuspiciousPattern);
      }
    }
  }

  /**
   A host containing a known scam domain is 危険 with score 95 whatever the
   scheme, the patterns and the path: the later rules cannot lower it.
   */
  lemma KnownDomainAlwaysDangerous(url: string, scheme: string, netloc: string, path: string,
                                   db: UrlDb, search: Matcher, d: string)
    requires d in db.dangerousDomains && Contains(Lower(netloc), d)
    requires netloc != ""
    ensures var r := AnalyzeUrl(url, Parsed(scheme, netloc, path), db, search);
      r.level == Dangerous && r.score == 95 && r.warnings[0] == KnownScamSite
  {
  }
}
