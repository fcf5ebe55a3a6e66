/**
 The phone database a session starts with, and the two places where the
 defaults or the store updates do not do what the rules around them
 evidently intend.
 */
module Defaults {
  import opened Text
  import opened Verdict
  import opened UrlAnalysis
  import opened PhoneAnalysis
  import opened StoreUpdates

  /**
   The phone database of a new session. Each warning pattern is anchored at
   the start (`^0120`, `^0570`, `^0990`, `^\+.*`), so it is kept as the
   literal prefix it tests for.
   */
  const DefaultPhoneDb: PhoneDb := PhoneDb(
    ["03-1234-5678", "0120-999-999", "050-1111-2222", "090-1234-5678"],
    ["050", "070", "+675", "+234", "+1-876"],
    ["0120", "0570", "0990", "+"],
    ["110", "119", "118"],
    [])

  // ---------------------------------------------------------------------
  // The Jamaica prefix
  // ---------------------------------------------------------------------

  /**
   The suspicious prefix `+1-876` is compared with the normalised number,
   from which every `-` has been removed, so no input ever draws its warning.
   */
  lemma JamaicaPrefixNeverMatches(number: string, history: seq<PhoneResult>)
    ensures SuspiciousPrefix("+1-876") !in AnalyzePhone(number, DefaultPhoneDb, history).result.warnings
  {
    StrippedPrefixNeverMatches(number, DefaultPhoneDb, history, "+1-876", 2);
  }

  /** The phone database with the Jamaica prefix written as normalised numbers look. */
  const CorrectedPhoneDb: PhoneDb := DefaultPhoneDb.(suspiciousPrefixes := ["050", "070", "+675", "+234", "+1876"])

  /**
   With the corrected prefix every number that is not listed and whose
   normalised form starts with `+1876` (`+1-876-555-1234`, say) draws the
   prefix warning.
   */
  lemma CorrectedJamaicaPrefixMatches(number: string, history: seq<PhoneResult>)
    requires StartsWith(Normalize(number), "+1876")
    requires number !in CorrectedPhoneDb.knownScamNumbers
    ensures SuspiciousPrefix("+1876") in AnalyzePhone(number, CorrectedPhoneDb, history).result.warnings
  {
    var n := Normalize(number);
    assert n[0] == '+';
    assert n !in EmergencyCodes;
    SuspiciousPrefixWarning(number, CorrectedPhoneDb, history, "+1876");
  }

  // ---------------------------------------------------------------------
  // The refresh keeps the host's case
  // ---------------------------------------------------------------------

  /**
   A site reported with an upper-case letter in its host (`https://X.jp/`,
   say) stays 安全 after the refresh: the stored host keeps its case, and the
   analyser looks for it in the lower-cased host, where it cannot occur.
   */
  lemma MixedCaseReportStaysSafe(url: string, host: string, path: string, search: Matcher)
    requires host != "" && Lower(host) != host
    ensures var parse: Parser := (u: string) => Parsed("https", host, path);
      var domains := Refresh([], [ReportedSite(url, "")], parse);
      && domains == [host]
      && AnalyzeUrl(url, parse(url), UrlDb(domains, [], []), search).level == Safe
  {
    var parse: Parser := (u: string) => Parsed("https", host, path);
    var sites := [ReportedSite(url, "")];
    assert parse(sites[0].url) == Parsed("https", host, path);
    assert sites[1..] == [];
    assert Refresh([], sites, parse) == Refresh([host], [], parse);
    ContainsSameLength(Lower(host), host);
    assert !ContainsAny(Lower(host), [host]);
  }
}
