/**
 The four ways the session's threat data changes: a phone report is merged
 into the reported cases, a number is added to the known scam numbers, a
 site report is recorded, and the refresh button moves the hosts of
 reported sites into the dangerous domains. Each operation takes the old
 value and returns the new one.
 */
module StoreUpdates {
  import opened Text
  import opened UrlAnalysis
  import opened PhoneAnalysis
  import opened Verdict

  // ---------------------------------------------------------------------
  // Phone reports
  // ---------------------------------------------------------------------

  /** The category chosen on the report form. */
  datatype Category = Fraud | Nuisance | Silent | Other

  function CategoryLabel(c: Category): string
  {
    match c
    case Fraud => "詐欺"
    case Nuisance => "迷惑営業"
    case Silent => "無言電話"
    case Other => "その他"
  }

  /** No two reported cases share a number. */
  predicate UniqueNumbers(cases: seq<ReportedCase>)
  {
    forall i, j :: 0 <= i < j < |cases| ==> cases[i].number != cases[j].number
  }

  /** Every reported case counts at least one report. */
  predicate Counted(cases: seq<ReportedCase>)
  {
    forall i :: 0 <= i < |cases| ==> cases[i].reports >= 1
  }

  /** The search loop with `break`: the index of the first case on the number, or `|cases|`. */
  function FirstCase(cases: seq<ReportedCase>, number: string): (k: nat)
    ensures k <= |cases|
    ensures k < |cases| ==> cases[k].number == number
    ensures forall i :: 0 <= i < k ==> cases[i].number != number
    decreases |cases|
  {
    if |cases| == 0 then 0
    else if cases[0].number == number then 0
    else 1 + FirstCase(cases[1..], number)
  }

  /** The description of a first report: the category in brackets, then the text. */
  function FirstDescription(category: Category, detail: string): string
  {
    "[" + CategoryLabel(category) + "] " + detail
  }

  /** The line a further report appends: its running count and its text (no category). */
  function FollowUpLine(count: nat, detail: string): string
  {
    "\n[追加通報 " + Decimal(count) + "] " + detail
  }

  /**
   Submitting a phone report: an empty number changes nothing; a number
   already reported gets one more report and a follow-up line; a new number
   is appended with one report.
   */
  function SubmitPhoneReport(cases: seq<ReportedCase>, number: string, category: Category, detail: string)
    : (r: seq<ReportedCase>)
    ensures number == "" ==> r == cases
    ensures number != "" && FirstCase(cases, number) == |cases| ==>
      r == cases + [ReportedCase(number, FirstDescription(category, detail), 1)]
    ensures number != "" && FirstCase(cases, number) < |cases| ==>
      var k := FirstCase(cases, number);
      && |r| == |cases|
      && r[k].number == number
      && r[k].reports == cases[k].reports + 1
      && r[k].description == cases[k].description + FollowUpLine(cases[k].reports + 1, detail)
      && (forall j :: 0 <= j < |cases| && j != k ==> r[j] == cases[j])
    ensures number != "" ==> exists i :: 0 <= i < |r| && r[i].number == number
    ensures UniqueNumbers(cases) ==> UniqueNumbers(r)
    ensures Counted(cases) ==> Counted(r)
  {
    if number == "" then
      cases
    else
      var k := FirstCase(cases, number);
      if k < |cases| then
        var old_ := cases[k];
        var count := old_.reports + 1;
        cases[k := old_.(reports := count, description := old_.description + FollowUpLine(count, detail))]
      else
        cases + [ReportedCase(number, FirstDescription(category, detail), 1)]
  }

  /**
   Reporting a new number twice leaves one case with two reports whose
   description is the first description followed by the follow-up line.
   */
  lemma ReportTwice(cases: seq<ReportedCase>, number: string, c1: Category, d1: string, c2: Category, d2: string)
    requires number != ""
    requires forall i :: 0 <= i < |cases| ==> cases[i].number != number
    ensures var r := SubmitPhoneReport(SubmitPhoneReport(cases, number, c1, d1), number, c2, d2);
      && |r| == |cases| + 1
      && r[..|cases|] == cases
      && r[|cases|] == ReportedCase(number, FirstDescription(c1, d1) + FollowUpLine(2, d2), 2)
  {
    var r1 := SubmitPhoneReport(cases, number, c1, d1);
    assert FirstCase(cases, number) == |cases|;
    assert r1 == cases + [ReportedCase(number, FirstDescription(c1, d1), 1)];
    assert FirstCase(r1, number) == |cases| by {
      assert r1[|cases|].number == number;
      FirstCaseIsFirst(r1, number, |cases|);
    }
  }

  /** The first case on the number is the least index holding it. */
  lemma FirstCaseIsFirst(cases: seq<ReportedCase>, number: string, k: nat)
    requires k < |cases| && cases[k].number == number
    requires forall i :: 0 <= i < k ==> cases[i].number != number
    ensures FirstCase(cases, number) == k
  {
  }

  // ---------------------------------------------------------------------
  // Known scam numbers
  // ---------------------------------------------------------------------

  /** No entry of the list occurs twice. */
  predicate Distinct(xs: seq<string>)
  {
    forall i, j :: 0 <= i < j < |xs| ==> xs[i] != xs[j]
  }

  /** The add-number form: a non-empty number not yet listed is appended. */
  function AddKnownScamNumber(numbers: seq<string>, number: string): (r: seq<string>)
    ensures forall x :: x in r <==> x in numbers || (x == number && number != "")
    ensures numbers <= r
    ensures |r| <= |numbers| + 1
    ensures Distinct(numbers) ==> Distinct(r)
  {
    if number != "" && number !in numbers then numbers + [number] else numbers
  }

  /** Adding the same number again changes nothing. */
  lemma AddKnownScamNumberIdempotent(numbers: seq<string>, number: string)
    ensures AddKnownScamNumber(AddKnownScamNumber(numbers, number), number) == AddKnownScamNumber(numbers, number)
  {
  }

  // ---------------------------------------------------------------------
  // Site reports and the refresh of the dangerous domains
  // ---------------------------------------------------------------------

  /** A reported site (its timestamp is not modelled). */
  datatype ReportedSite = ReportedSite(url: string, detail: string)

  /** The site report form: a report with a non-empty URL is appended. */
  function SubmitSiteReport(sites: seq<ReportedSite>, url: string, detail: string): (r: seq<ReportedSite>)
    ensures sites <= r
    ensures |r| == |sites| + (if url != "" then 1 else 0)
    ensures url != "" ==> r[|sites|] == ReportedSite(url, detail)
  {
    if url != "" then sites + [ReportedSite(url, detail)] else sites
  }

  /** The hosts `urlparse` gives the reported sites, in report order, skipping those it rejects. */
  function ReportedHosts(sites: seq<ReportedSite>, parse: Parser): seq<string>
    decreases |sites|
  {
    if |sites| == 0 then []
    else if parse(sites[0].url).Parsed? then [parse(sites[0].url).netloc] + ReportedHosts(sites[1..], parse)
    else ReportedHosts(sites[1..], parse)
  }

  /** A host is reported exactly when some reported site that parses has it. */
  lemma {:induction false} ReportedHostsSpec(sites: seq<ReportedSite>, parse: Parser, h: string)
    ensures h in ReportedHosts(sites, parse) <==>
      exists s :: s in sites && parse(s.url).Parsed? && parse(s.url).netloc == h
    decreases |sites|
  {
    if |sites| > 0 {
      ReportedHostsSpec(sites[1..], parse, h);
      assert forall s :: s in sites <==> s == sites[0] || s in sites[1..];
    }
  }

  /**
   The refresh loop: each reported URL's network location, as `urlparse`
   gives it (not lower-cased), is appended when it is non-empty and not yet
   listed. An exception from `urlparse` ends the handler: the entries
   appended before it stay, the rest of the reports are not visited.
   */
  function Refresh(domains: seq<string>, sites: seq<ReportedSite>, parse: Parser): (r: seq<string>)
    ensures domains <= r
    ensures forall i :: |domains| <= i < |r| ==> r[i] != "" && r[i] !in domains && r[i] in ReportedHosts(sites, parse)
    ensures Distinct(domains) ==> Distinct(r)
    ensures (forall s :: s in sites ==> parse(s.url).Parsed?) ==>
      forall s :: s in sites && parse(s.url).netloc != "" ==> parse(s.url).netloc in r
    decreases |sites|
  {
    if |sites| == 0 then
      domains
    else
      var p := parse(sites[0].url);
      if p.ParseFailed? then domains
      else
        var netloc := p.netloc;
        var next := if netloc != "" && netloc !in domains then domains + [netloc] else domains;
        var r := Refresh(next, sites[1..], parse);
        assert ReportedHosts(sites, parse) == [netloc] + ReportedHosts(sites[1..], parse);
        AppendHost(domains, netloc, next, r);
        assert forall s :: s in sites <==> s == sites[0] || s in sites[1..];
        r
  }

  /**
   One step of the refresh loop: after `host` is appended (when non-empty
   and new) and the rest of the loop has run, the old entries are kept, the
   added ones are non-empty and new, and distinctness survives.
   */
  lemma AppendHost(domains: seq<string>, host: string, next: seq<string>, r: seq<string>)
    requires next == if host != "" && host !in domains then domains + [host] else domains
    requires next <= r
    requires forall i :: |next| <= i < |r| ==> r[i] != "" && r[i] !in next
    requires Distinct(next) ==> Distinct(r)
    ensures domains <= r
    ensures forall i :: |domains| <= i < |r| ==> r[i] != "" && r[i] !in domains
    ensures forall i :: |domains| <= i < |next| ==> r[i] == host
    ensures Distinct(domains) ==> Distinct(r)
    ensures host != "" ==> host in r
  {
    assert domains <= next;
    if host != "" {
      assert host in next;
    }
  }

  /** Each entry the refresh adds is the host of a reported site that parses. */
  lemma RefreshAddsReportedHost(domains: seq<string>, sites: seq<ReportedSite>, parse: Parser)
    ensures var r := Refresh(domains, sites, parse);
      forall i :: |domains| <= i < |r| ==>
        exists s :: s in sites && parse(s.url).Parsed? && parse(s.url).netloc == r[i]
  {
    var r := Refresh(domains, sites, parse);
    forall i | |domains| <= i < |r|
      ensures exists s :: s in sites && parse(s.url).Parsed? && parse(s.url).netloc == r[i]
    {
      ReportedHostsSpec(sites, parse, r[i]);
    }
  }

  /** Every reported host the refresh would add is already listed (up to the first parse failure). */
  predicate Covered(domains: seq<string>, sites: seq<ReportedSite>, parse: Parser)
    decreases |sites|
  {
    || |sites| == 0
    || parse(sites[0].url).ParseFailed?
    || ((parse(sites[0].url).netloc == "" || parse(sites[0].url).netloc in domains)
        && Covered(domains, sites[1..], parse))
  }

  /** Refreshing a list that already covers the reports changes nothing. */
  lemma {:induction false} RefreshOfCovered(domains: seq<string>, sites: seq<ReportedSite>, parse: Parser)
    requires Covered(domains, sites, parse)
    ensures Refresh(domains, sites, parse) == domains
    decreases |sites|
  {
    if |sites| > 0 && parse(sites[0].url).Parsed? {
      RefreshOfCovered(domains, sites[1..], parse);
    }
  }

  /** Covering survives growing the list. */
  lemma {:induction false} CoveredGrows(domains: seq<string>, more: seq<string>, sites: seq<ReportedSite>, parse: Parser)
    requires Covered(domains, sites, parse)
    requires forall d :: d in domains ==> d in more
    ensures Covered(more, sites, parse)
    decreases |sites|
  {
    if |sites| > 0 && parse(sites[0].url).Parsed? {
      CoveredGrows(domains, more, sites[1..], parse);
    }
  }

  /** After a refresh, the list covers the reports. */
  lemma {:induction false} RefreshCovers(domains: seq<string>, sites: seq<ReportedSite>, parse: Parser)
    ensures Covered(Refresh(domains, sites, parse), sites, parse)
    decreases |sites|
  {
    if |sites| > 0 && parse(sites[0].url).Parsed? {
      var netloc := parse(sites[0].url).netloc;
      var next := if netloc != "" && netloc !in domains then domains + [netloc] else domains;
      var r := Refresh(next, sites[1..], parse);
      RefreshCovers(next, sites[1..], parse);
      assert next <= r;
      if netloc != "" {
        assert netloc in next;
        assert netloc in r;
      }
    }
  }

  /** Pressing the refresh button twice gives the same list as pressing it once. */
  lemma RefreshIdempotent(domains: seq<string>, sites: seq<ReportedSite>, parse: Parser)
    ensures Refresh(Refresh(domains, sites, parse), sites, parse) == Refresh(domains, sites, parse)
  {
    RefreshCovers(domains, sites, parse);
    RefreshOfCovered(Refresh(domains, sites, parse), sites, parse);
  }

  /**
   After a refresh, a reported URL whose host is already lower-case is
   危険 for the URL analyser, whatever the patterns and the scheme.
   */
  lemma RefreshFlagsLowercaseHosts(db: UrlDb, sites: seq<ReportedSite>, parse: Parser, search: Matcher, s: ReportedSite)
    requires forall x :: x in sites ==> parse(x.url).Parsed?
    requires s in sites && parse(s.url).netloc != ""
    requires Lower(parse(s.url).netloc) == parse(s.url).netloc
    ensures var db' := db.(dangerousDomains := Refresh(db.dangerousDomains, sites, parse));
      AnalyzeUrl(s.url, parse(s.url), db', search).level == Dangerous
  {
    var netloc := parse(s.url).netloc;
    ContainsSelf(netloc);
  }

  /** Each host lower-cased, in order. */
  function LowerAll(hosts: seq<string>): seq<string>
    decreases |hosts|
  {
    if |hosts| == 0 then [] else [Lower(hosts[0])] + LowerAll(hosts[1..])
  }

  /** A string is in `LowerAll(hosts)` exactly when it is some host lower-cased. */
  lemma {:induction false} LowerAllSpec(hosts: seq<string>, x: string)
    ensures x in LowerAll(hosts) <==> exists h :: h in hosts && x == Lower(h)
    decreases |hosts|
  {
    if |hosts| > 0 {
      LowerAllSpec(hosts[1..], x);
      assert LowerAll(hosts) == [Lower(hosts[0])] + LowerAll(hosts[1..]);
      if x in LowerAll(hosts[1..]) {
        var h :| h in hosts[1..] && x == Lower(h);
        assert h in hosts;
      }
      if x == Lower(hosts[0]) {
        assert hosts[0] in hosts;
      }
      assert forall h :: h in hosts <==> h == hosts[0] || h in hosts[1..];
    }
  }

  /**
   The refresh as evidently intended: the host is lower-cased before it is
   compared and stored, as the analyser lower-cases the host it checks.
   */
  function RefreshLowered(domains: seq<string>, sites: seq<ReportedSite>, parse: Parser): (r: seq<string>)
    ensures domains <= r
    ensures forall i :: |domains| <= i < |r| ==> r[i] != "" && r[i] !in domains
    ensures forall i :: |domains| <= i < |r| ==> r[i] in LowerAll(ReportedHosts(sites, parse))
    ensures Distinct(domains) ==> Distinct(r)
    ensures (forall s :: s in sites ==> parse(s.url).Parsed?) ==>
      forall s :: s in sites && parse(s.url).netloc != "" ==> Lower(parse(s.url).netloc) in r
    decreases |sites|
  {
    if |sites| == 0 then
      domains
    else
      var p := parse(sites[0].url);
      if p.ParseFailed? then domains
      else
        var host := Lower(p.netloc);
        var next := if host != "" && host !in domains then domains + [host] else domains;
        var r := RefreshLowered(next, sites[1..], parse);
        assert LowerAll(ReportedHosts(sites, parse)) == [host] + LowerAll(ReportedHosts(sites[1..], parse));
        AppendHost(domains, host, next, r);
        assert forall s :: s in sites <==> s == sites[0] || s in sites[1..];
        r
  }

  /** Each entry the corrected refresh adds is the lower-cased host of a reported site that parses. */
  lemma RefreshLoweredAddsReportedHost(domains: seq<string>, sites: seq<ReportedSite>, parse: Parser)
    ensures var r := RefreshLowered(domains, sites, parse);
      forall i :: |domains| <= i < |r| ==>
        exists s :: s in sites && parse(s.url).Parsed? && r[i] == Lower(parse(s.url).netloc)
  {
    var r := RefreshLowered(domains, sites, parse);
    forall i | |domains| <= i < |r|
      ensures exists s :: s in sites && parse(s.url).Parsed? && r[i] == Lower(parse(s.url).netloc)
    {
      LowerAllSpec(ReportedHosts(sites, parse), r[i]);
      var h :| h in ReportedHosts(sites, parse) && r[i] == Lower(h);
      ReportedHostsSpec(sites, parse, h);
    }
  }

  /** With the corrected refresh every reported URL with a host is 危険 afterwards. */
  lemma RefreshLoweredFlagsEveryReport(db: UrlDb, sites: seq<ReportedSite>, parse: Parser, search: Matcher, s: ReportedSite)
    requires forall x :: x in sites ==> parse(x.url).Parsed?
    requires s in sites && parse(s.url).netloc != ""
    ensures var db' := db.(dangerousDomains := RefreshLowered(db.dangerousDomains, sites, parse));
      AnalyzeUrl(s.url, parse(s.url), db', search).level == Dangerous
  {
    var host := Lower(parse(s.url).netloc);
    ContainsSelf(host);
  }
}
