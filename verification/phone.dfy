/**
 The phone-number analyser (`analyze_phone_number`) with its helpers
 `identify_number_type` and `identify_area`. The `^`-anchored
 `warning_patterns` are literal prefixes of the original input, so they are
 kept as prefix strings.
 */
module PhoneAnalysis {
  import opened Text
  import opened Verdict

  // ---------------------------------------------------------------------
  // Normalisation
  // ---------------------------------------------------------------------

  /** The class `[-\s()]` that normalisation deletes. */
  predicate IsStripped(c: char)
  {
    c == '-' || IsSpace(c) || c == '(' || c == ')'
  }

  /** No character of `s` is one normalisation deletes. */
  predicate IsNormal(s: string)
  {
    forall i :: 0 <= i < |s| ==> !IsStripped(s[i])
  }

  /** `re.sub(r'[-\s()]+', '', number)`. */
  function Normalize(s: string): (r: string)
    ensures |r| <= |s|
    ensures IsNormal(r)
  {
    if |s| == 0 then
      ""
    else
      (if IsStripped(s[0]) then "" else [s[0]]) + Normalize(s[1..])
  }

  /** Normalisation works character by character: it distributes over concatenation. */
  lemma {:induction false} NormalizeAppend(a: string, b: string)
    ensures Normalize(a + b) == Normalize(a) + Normalize(b)
    decreases |a|
  {
    if |a| == 0 {
      assert a + b == b;
    } else {
      var head: string := if IsStripped(a[0]) then "" else [a[0]];
      assert (a + b)[0] == a[0];
      assert (a + b)[1..] == a[1..] + b;
      assert Normalize(a + b) == head + Normalize(a[1..] + b);
      NormalizeAppend(a[1..], b);
      assert Normalize(a) == head + Normalize(a[1..]);
    }
  }

  /** Normalisation keeps every other character, as often as it occurs. */
  lemma {:induction false} NormalizeKeepsOthers(s: string)
    ensures forall c :: !IsStripped(c) ==> multiset(Normalize(s))[c] == multiset(s)[c]
    decreases |s|
  {
    if |s| > 0 {
      assert s == [s[0]] + s[1..];
      NormalizeKeepsOthers(s[1..]);
    }
  }

  /** A hyphen is deleted wherever it stands; the text on both sides is normalised on its own. */
  lemma NormalizeDropsHyphen(a: string, b: string)
    ensures Normalize(a + "-" + b) == Normalize(a) + Normalize(b)
  {
    var hyphen := "-";
    NormalizeChar('-');
    assert Normalize(hyphen) == "";
    NormalizeAppend(a, hyphen);
    NormalizeAppend(a + hyphen, b);
    assert Normalize(a + hyphen) == Normalize(a);
  }

  /** On one character normalisation deletes it or keeps it. */
  lemma NormalizeChar(c: char)
    ensures Normalize([c]) == if IsStripped(c) then "" else [c]
  {
    assert [c][1..] == "";
  }

  /** The strings normalisation leaves alone are exactly those without a deleted character. */
  lemma {:induction false} NormalizeFixedPoints(s: string)
    ensures Normalize(s) == s <==> IsNormal(s)
    decreases |s|
  {
    if |s| > 0 {
      NormalizeFixedPoints(s[1..]);
      if IsNormal(s) {
        assert IsNormal(s[1..]);
      }
    }
  }

  /** Normalising twice is normalising once. */
  lemma NormalizeIdempotent(s: string)
    ensures Normalize(Normalize(s)) == Normalize(s)
  {
    NormalizeFixedPoints(Normalize(s));
  }

  // ---------------------------------------------------------------------
  // Number type and area
  // ---------------------------------------------------------------------

  datatype NumberType =
    | FreeDial        // フリーダイヤル
    | IpPhone         // IP電話
    | Mobile          // 携帯電話
    | NaviDial        // ナビダイヤル
    | Landline        // 固定電話
    | Overseas        // 国際電話
    | UnknownType     // 不明

  /** `identify_number_type`, applied to the normalised number; the first matching rule wins. */
  function NumberTypeOf(n: string): (t: NumberType)
    ensures t == FreeDial <==> StartsWith(n, "0120") || StartsWith(n, "0800")
    ensures t == IpPhone <==> StartsWith(n, "050")
    ensures t == Mobile <==>
      (StartsWith(n, "090") || StartsWith(n, "080") || StartsWith(n, "070")) && !StartsWith(n, "0800")
    ensures t == NaviDial <==> StartsWith(n, "0570")
    ensures t == Landline <==>
      && StartsWith(n, "0")
      && !StartsWith(n, "0120") && !StartsWith(n, "0800") && !StartsWith(n, "050")
      && !StartsWith(n, "090") && !StartsWith(n, "080") && !StartsWith(n, "070")
      && !StartsWith(n, "0570")
    ensures t == Overseas <==> StartsWith(n, "+")
    ensures t == UnknownType <==> |n| == 0 || (n[0] != '0' && n[0] != '+')
  {
    TypePrefixesDisagree(n);
    if StartsWith(n, "0120") || StartsWith(n, "0800") then FreeDial
    else if StartsWith(n, "050") then IpPhone
    else if StartsWith(n, "090") || StartsWith(n, "080") || StartsWith(n, "070") then Mobile
    else if StartsWith(n, "0570") then NaviDial
    else if StartsWith(n, "0") then Landline
    else if StartsWith(n, "+") then Overseas
    else UnknownType
  }

  /** The pairs of type prefixes that exclude each other. */
  lemma TypePrefixesDisagree(n: string)
    ensures !(StartsWith(n, "050") && StartsWith(n, "0120"))
    ensures !(StartsWith(n, "050") && StartsWith(n, "0800"))
    ensures !(StartsWith(n, "0570") && StartsWith(n, "050"))
    ensures !(StartsWith(n, "0570") && StartsWith(n, "0120"))
    ensures !(StartsWith(n, "0570") && StartsWith(n, "0800"))
    ensures !(StartsWith(n, "0570") && StartsWith(n, "090"))
    ensures !(StartsWith(n, "0570") && StartsWith(n, "080"))
    ensures !(StartsWith(n, "0570") && StartsWith(n, "070"))
    ensures !(StartsWith(n, "090") && StartsWith(n, "0120"))
    ensures !(StartsWith(n, "070") && StartsWith(n, "0120"))
    ensures !(StartsWith(n, "080") && StartsWith(n, "0120"))
    ensures !(StartsWith(n, "090") && StartsWith(n, "0800"))
    ensures !(StartsWith(n, "070") && StartsWith(n, "0800"))
    ensures StartsWith(n, "0") <==> |n| > 0 && n[0] == '0'
    ensures StartsWith(n, "+") <==> |n| > 0 && n[0] == '+'
    ensures (|| StartsWith(n, "0120") || StartsWith(n, "0800") || StartsWith(n, "050") || StartsWith(n, "0570")
             || StartsWith(n, "090") || StartsWith(n, "080") || StartsWith(n, "070"))
            ==> StartsWith(n, "0")
  {
    PrefixesDisagree(n, "050", "0120", 1);
    PrefixesDisagree(n, "050", "0800", 1);
    PrefixesDisagree(n, "0570", "050", 2);
    PrefixesDisagree(n, "0570", "0120", 1);
    PrefixesDisagree(n, "0570", "0800", 1);
    PrefixesDisagree(n, "0570", "090", 1);
    PrefixesDisagree(n, "0570", "080", 1);
    PrefixesDisagree(n, "0570", "070", 1);
    PrefixesDisagree(n, "090", "0120", 1);
    PrefixesDisagree(n, "070", "0120", 1);
    PrefixesDisagree(n, "080", "0120", 1);
    PrefixesDisagree(n, "090", "0800", 1);
    PrefixesDisagree(n, "070", "0800", 1);
    if |n| > 0 {
      assert n[..1] == [n[0]];
    }
  }

  datatype Area = Tokyo | Osaka | Nagoya | Sapporo | Fukuoka | Kyoto | UnknownArea

  /** The area-code table of `identify_area`, in its insertion order. */
  const AreaCodes: seq<(string, Area)> :=
    [("03", Tokyo), ("06", Osaka), ("052", Nagoya), ("011", Sapporo), ("092", Fukuoka), ("075", Kyoto)]

  /** The first code of the table that prefixes the number gives its area. */
  function LookupArea(number: string, codes: seq<(string, Area)>): (a: Area)
    ensures a == UnknownArea || exists i :: 0 <= i < |codes| && codes[i].1 == a
    decreases |codes|
  {
    if |codes| == 0 then UnknownArea
    else if StartsWith(number, codes[0].0) then codes[0].1
    else
      var a := LookupArea(number, codes[1..]);
      assert a != UnknownArea ==> exists i :: 0 <= i < |codes[1..]| && codes[1..][i].1 == a;
      assert forall i :: 0 <= i < |codes[1..]| ==> codes[1..][i] == codes[i + 1];
      a
  }

  /** `identify_area`, applied to the ORIGINAL (not normalised) number. */
  function AreaOf(number: string): Area
  {
    LookupArea(number, AreaCodes)
  }

  /** No code of the table is a prefix of another one. */
  predicate PrefixFree(codes: seq<(string, Area)>)
  {
    forall i, j :: 0 <= i < |codes| && 0 <= j < |codes| && i != j ==> !StartsWith(codes[j].0, codes[i].0)
  }

  /** Two prefixes of one string: the shorter is a prefix of the longer. */
  lemma PrefixesNest(s: string, p: string, q: string)
    requires StartsWith(s, p) && StartsWith(s, q) && |p| <= |q|
    ensures StartsWith(q, p)
  {
    assert q[..|p|] == s[..|q|][..|p|];
  }

  /**
   With a prefix-free table the lookup does not depend on the table's order:
   whichever code prefixes the number, its area is the answer; and the answer
   is 不明 exactly when no code prefixes the number.
   */
  lemma {:induction false} LookupAreaFindsTheMatch(number: string, codes: seq<(string, Area)>)
    requires PrefixFree(codes)
    ensures forall i :: 0 <= i < |codes| && StartsWith(number, codes[i].0) ==>
      LookupArea(number, codes) == codes[i].1
    ensures (forall i :: 0 <= i < |codes| ==> !StartsWith(number, codes[i].0)) ==>
      LookupArea(number, codes) == UnknownArea
    decreases |codes|
  {
    if |codes| > 0 {
      var tail := codes[1..];
      assert PrefixFree(tail) by {
        forall i, j | 0 <= i < |tail| && 0 <= j < |tail| && i != j
          ensures !StartsWith(tail[j].0, tail[i].0)
        {
          assert tail[i] == codes[i + 1] && tail[j] == codes[j + 1];
        }
      }
      LookupAreaFindsTheMatch(number, tail);
      forall i | 0 <= i < |codes| && StartsWith(number, codes[i].0)
        ensures LookupArea(number, codes) == codes[i].1
      {
        if i > 0 {
          if StartsWith(number, codes[0].0) {
            if |codes[0].0| <= |codes[i].0| {
              PrefixesNest(number, codes[0].0, codes[i].0);
            } else {
              PrefixesNest(number, codes[i].0, codes[0].0);
            }
            assert false;
          }
          assert tail[i - 1] == codes[i];
        }
      }
      if forall i :: 0 <= i < |codes| ==> !StartsWith(number, codes[i].0) {
        assert forall i :: 0 <= i < |tail| ==> tail[i] == codes[i + 1];
      }
    }
  }

  /** The six area codes are prefix-free, so their order in the table never matters. */
  lemma AreaCodesPrefixFree()
    ensures PrefixFree(AreaCodes)
  {
    forall i, j | 0 <= i < |AreaCodes| && 0 <= j < |AreaCodes| && i != j
      ensures !StartsWith(AreaCodes[j].0, AreaCodes[i].0)
    {
      PrefixesDisagree(AreaCodes[j].0, AreaCodes[i].0, AreaCodes[j].0, 1);
    }
  }

  /**
   `identify_area` answers the area of the one code that prefixes the
   original number, and 不明 when none does.
   */
  lemma AreaOfIsTheMatchingCode(number: string)
    ensures forall i :: 0 <= i < |AreaCodes| && StartsWith(number, AreaCodes[i].0) ==>
      AreaOf(number) == AreaCodes[i].1
    ensures AreaOf(number) == UnknownArea <==>
      forall i :: 0 <= i < |AreaCodes| ==> !StartsWith(number, AreaCodes[i].0)
  {
    AreaCodesPrefixFree();
    LookupAreaFindsTheMatch(number, AreaCodes);
  }

  // ---------------------------------------------------------------------
  // The phone database and the analyser
  // ---------------------------------------------------------------------

  /** A user report about a number (the report's timestamp is not modelled). */
  datatype ReportedCase = ReportedCase(number: string, description: string, reports: nat)

  /**
   The phone database (`scam_database`). `warningPatterns` holds the literal
   prefix of each `^`-anchored pattern; `safePrefixes` is stored but never
   consulted, the analyser has its own list of emergency codes.
   */
  datatype PhoneDb = PhoneDb(
    knownScamNumbers: seq<string>,
    suspiciousPrefixes: seq<string>,
    warningPatterns: seq<string>,
    safePrefixes: seq<string>,
    reportedCases: seq<ReportedCase>)

  const EmergencyCodes: seq<string> := ["110", "119", "118"]

  datatype PhoneWarning =
    | KnownScamNumber                 // a known scam number
    | ReportedTimes(reports: nat)     // the number was reported this many times
    | SuspiciousPrefix(prefix: string)
    | CautionPattern                  // a pattern that calls for caution
    | InternationalCall

  datatype PhoneDetail =
    | EmergencyNumber                 // an emergency service number
    | ReportDescription(text: string) // the text of a user report
    | TypeDetail(kind: NumberType)
    | AreaDetail(area: Area)

  datatype Recommendation =
    | DoNotAnswer          // never answer
    | BlockNumber          // block the number
    | TakeCare             // respond with care
    | IgnoreIfUnknown      // do not answer an unfamiliar international call
    | NothingDetected      // nothing in particular was detected
    | BewareOfRequests     // be wary of unusual requests

  datatype PhoneResult = PhoneResult(
    original: string,
    normalized: string,
    level: Level,
    warnings: seq<PhoneWarning>,
    details: seq<PhoneDetail>,
    recommendations: seq<Recommendation>)

  /** The result of one check and the check history after it. */
  datatype PhoneCheck = PhoneCheck(result: PhoneResult, history: seq<PhoneResult>)

  /** The reports whose number equals the original input, in database order. */
  function MatchingCases(cases: seq<ReportedCase>, number: string): seq<ReportedCase>
    decreases |cases|
  {
    if |cases| == 0 then []
    else (if cases[0].number == number then [cases[0]] else []) + MatchingCases(cases[1..], number)
  }

  /** `MatchingCases` keeps exactly the reports on the number. */
  lemma {:induction false} MatchingCasesSpec(cases: seq<ReportedCase>, number: string)
    ensures forall c :: c in MatchingCases(cases, number) <==> c in cases && c.number == number
    ensures |MatchingCases(cases, number)| > 0 <==> exists c :: c in cases && c.number == number
    decreases |cases|
  {
    if |cases| > 0 {
      MatchingCasesSpec(cases[1..], number);
      assert forall c :: c in cases <==> c == cases[0] || c in cases[1..];
      var m := MatchingCases(cases, number);
      if cases[0].number == number {
        assert m[0] == cases[0];
      }
    }
  }

  /** The entries of a list that the string starts with, in list order. */
  function PrefixHits(prefixes: seq<string>, s: string): seq<string>
    decreases |prefixes|
  {
    if |prefixes| == 0 then []
    else (if StartsWith(s, prefixes[0]) then [prefixes[0]] else []) + PrefixHits(prefixes[1..], s)
  }

  /** `PrefixHits` keeps exactly the entries that prefix the string. */
  lemma {:induction false} PrefixHitsSpec(prefixes: seq<string>, s: string)
    ensures forall p :: p in PrefixHits(prefixes, s) <==> p in prefixes && StartsWith(s, p)
    ensures |PrefixHits(prefixes, s)| > 0 <==> exists p :: p in prefixes && StartsWith(s, p)
    decreases |prefixes|
  {
    if |prefixes| > 0 {
      PrefixHitsSpec(prefixes[1..], s);
      assert forall p :: p in prefixes <==> p == prefixes[0] || p in prefixes[1..];
      var h := PrefixHits(prefixes, s);
      if StartsWith(s, prefixes[0]) {
        assert h[0] == prefixes[0];
      }
    }
  }

  function ReportWarnings(m: seq<ReportedCase>): (ws: seq<PhoneWarning>)
    ensures |ws| == |m|
  {
    if |m| == 0 then [] else [ReportedTimes(m[0].reports)] + ReportWarnings(m[1..])
  }

  function ReportDetails(m: seq<ReportedCase>): (ds: seq<PhoneDetail>)
    ensures |ds| == |m|
  {
    if |m| == 0 then [] else [ReportDescription(m[0].description)] + ReportDetails(m[1..])
  }

  function PrefixWarnings(h: seq<string>): (ws: seq<PhoneWarning>)
    ensures |ws| == |h|
  {
    if |h| == 0 then [] else [SuspiciousPrefix(h[0])] + PrefixWarnings(h[1..])
  }

  function Repeat<T>(x: T, n: nat): (xs: seq<T>)
    ensures |xs| == n
    ensures forall i :: 0 <= i < n ==> xs[i] == x
  {
    if n == 0 then [] else [x] + Repeat(x, n - 1)
  }

  lemma {:induction false} ReportWarningsAppend(a: seq<ReportedCase>, b: seq<ReportedCase>)
    ensures ReportWarnings(a + b) == ReportWarnings(a) + ReportWarnings(b)
    decreases |a|
  {
    if |a| == 0 {
      assert a + b == b;
    } else {
      assert (a + b)[1..] == a[1..] + b;
      ReportWarningsAppend(a[1..], b);
    }
  }

  lemma {:induction false} ReportDetailsAppend(a: seq<ReportedCase>, b: seq<ReportedCase>)
    ensures ReportDetails(a + b) == ReportDetails(a) + ReportDetails(b)
    decreases |a|
  {
    if |a| == 0 {
      assert a + b == b;
    } else {
      assert (a + b)[1..] == a[1..] + b;
      ReportDetailsAppend(a[1..], b);
    }
  }

  lemma {:induction false} PrefixWarningsAppend(a: seq<string>, b: seq<string>)
    ensures PrefixWarnings(a + b) == PrefixWarnings(a) + PrefixWarnings(b)
    decreases |a|
  {
    if |a| == 0 {
      assert a + b == b;
    } else {
      assert (a + b)[1..] == a[1..] + b;
      PrefixWarningsAppend(a[1..], b);
    }
  }

  lemma {:induction false} RepeatAdd<T>(x: T, a: nat, b: nat)
    ensures Repeat(x, a + b) == Repeat(x, a) + Repeat(x, b)
  {
  }

  /** The reported-cases loop: every report on the number makes the result 危険. */
  function ReportedStep(r: PhoneResult, cases: seq<ReportedCase>): (r': PhoneResult)
    ensures var m := MatchingCases(cases, r.original);
      && r'.level == (if |m| > 0 then Dangerous else r.level)
      && r'.warnings == r.warnings + ReportWarnings(m)
      && r'.details == r.details + ReportDetails(m)
      && r'.recommendations == r.recommendations
      && r'.original == r.original && r'.normalized == r.normalized
    decreases |cases|
  {
    if |cases| == 0 then
      r
    else if cases[0].number == r.original then
      var c := cases[0];
      var r1 := r.(level := Dangerous,
                   warnings := r.warnings + [ReportedTimes(c.reports)],
                   details := r.details + [ReportDescription(c.description)]);
      var rest := MatchingCases(cases[1..], r.original);
      assert MatchingCases(cases, r.original) == [c] + rest;
      var r2 := ReportedStep(r1, cases[1..]);
      assert r2.warnings == r.warnings + ReportWarnings([c] + rest) by {
        ReportWarningsAppend([c], rest);
      }
      assert r2.details == r.details + ReportDetails([c] + rest) by {
        ReportDetailsAppend([c], rest);
      }
      r2
    else
      assert MatchingCases(cases, r.original) == MatchingCases(cases[1..], r.original);
      ReportedStep(r, cases[1..])
  }

  /** The suspicious-prefix loop on the normalised number: one warning and one recommendation per hit. */
  function PrefixStep(r: PhoneResult, prefixes: seq<string>): (r': PhoneResult)
    ensures var h := PrefixHits(prefixes, r.normalized);
      && r'.level == (if |h| > 0 then RaiseToCaution(r.level) else r.level)
      && r'.warnings == r.warnings + PrefixWarnings(h)
      && r'.recommendations == r.recommendations + Repeat(TakeCare, |h|)
      && r'.details == r.details
      && r'.original == r.original && r'.normalized == r.normalized
    decreases |prefixes|
  {
    if |prefixes| == 0 then
      r
    else if StartsWith(r.normalized, prefixes[0]) then
      var p := prefixes[0];
      var r1 := r.(level := RaiseToCaution(r.level),
                   warnings := r.warnings + [SuspiciousPrefix(p)],
                   recommendations := r.recommendations + [TakeCare]);
      var rest := PrefixHits(prefixes[1..], r.normalized);
      assert PrefixHits(prefixes, r.normalized) == [p] + rest;
      var r2 := PrefixStep(r1, prefixes[1..]);
      assert r2.warnings == r.warnings + PrefixWarnings([p] + rest) by {
        PrefixWarningsAppend([p], rest);
      }
      assert r2.recommendations == r.recommendations + Repeat(TakeCare, |[p] + rest|) by {
        RepeatAdd(TakeCare, 1, |rest|);
      }
      r2
    else
      assert PrefixHits(prefixes, r.normalized) == PrefixHits(prefixes[1..], r.normalized);
      PrefixStep(r, prefixes[1..])
  }

  /** The warning-pattern loop on the original input: one warning per matching pattern. */
  function PatternStep(r: PhoneResult, patterns: seq<string>): (r': PhoneResult)
    ensures var h := PrefixHits(patterns, r.original);
      && r'.level == (if |h| > 0 then RaiseToCaution(r.level) else r.level)
      && r'.warnings == r.warnings + Repeat(CautionPattern, |h|)
      && r'.recommendations == r.recommendations
      && r'.details == r.details
      && r'.original == r.original && r'.normalized == r.normalized
    decreases |patterns|
  {
    if |patterns| == 0 then
      r
    else if StartsWith(r.original, patterns[0]) then
      var r1 := r.(level := RaiseToCaution(r.level), warnings := r.warnings + [CautionPattern]);
      var rest := PrefixHits(patterns[1..], r.original);
      assert PrefixHits(patterns, r.original) == [patterns[0]] + rest;
      var r2 := PatternStep(r1, patterns[1..]);
      assert r2.warnings == r.warnings + Repeat(CautionPattern, 1 + |rest|) by {
        RepeatAdd(CautionPattern, 1, |rest|);
      }
      r2
    else
      assert PrefixHits(patterns, r.original) == PrefixHits(patterns[1..], r.original);
      PatternStep(r, patterns[1..])
  }

  /** A leading `+` on the input, or `010` on the normalised number. */
  predicate IsInternational(original: string, normalized: string)
  {
    StartsWith(original, "+") || StartsWith(normalized, "010")
  }

  function InternationalStep(r: PhoneResult): (r': PhoneResult)
    ensures IsInternational(r.original, r.normalized) ==>
      && r'.level == RaiseToCaution(r.level)
      && r'.warnings == r.warnings + [InternationalCall]
      && r'.recommendations == r.recommendations + [IgnoreIfUnknown]
      && r'.details == r.details
    ensures !IsInternational(r.original, r.normalized) ==> r' == r
    ensures r'.original == r.original && r'.normalized == r.normalized
  {
    if IsInternational(r.original, r.normalized) then
      r.(warnings := r.warnings + [InternationalCall],
         recommendations := r.recommendations + [IgnoreIfUnknown],
         level := RaiseToCaution(r.level))
    else r
  }

  /** The detail lines (type from the normalised number, area from the original) and the reassurance for 安全. */
  function FinishStep(r: PhoneResult): (r': PhoneResult)
    ensures r'.level == r.level && r'.warnings == r.warnings
    ensures r'.details == r.details + [TypeDetail(NumberTypeOf(r.normalized)), AreaDetail(AreaOf(r.original))]
    ensures r'.recommendations ==
      r.recommendations + (if r.level == Safe then [NothingDetected, BewareOfRequests] else [])
    ensures r'.original == r.original && r'.normalized == r.normalized
  {
    var r1 := r.(details := r.details + [TypeDetail(NumberTypeOf(r.normalized)), AreaDetail(AreaOf(r.original))]);
    if r1.level == Safe then
      r1.(recommendations := r1.recommendations + [NothingDetected, BewareOfRequests])
    else r1
  }

  /**
   Past the short-circuits the level never goes down: reports can only make
   it 危険, and the prefix, pattern and international rules only move 安全 to
   注意. Each prefix hit adds one warning and one recommendation.
   */
  lemma RulesNeverLowerTheLevel(r: PhoneResult, db: PhoneDb)
    requires r.level.Ordered()
    ensures var r1 := ReportedStep(r, db.reportedCases);
      var r2 := PrefixStep(r1, db.suspiciousPrefixes);
      var r3 := PatternStep(r2, db.warningPatterns);
      var r4 := InternationalStep(r3);
      var hits := |PrefixHits(db.suspiciousPrefixes, r.normalized)|;
      && NoLower(r.level, r1.level) && NoLower(r1.level, r2.level)
      && NoLower(r2.level, r3.level) && NoLower(r3.level, r4.level)
      && (r1.level == r.level || r1.level == Dangerous)
      && (r2.level == r1.level || r2.level == RaiseToCaution(r1.level))
      && (r3.level == r2.level || r3.level == RaiseToCaution(r2.level))
      && (r4.level == r3.level || r4.level == RaiseToCaution(r3.level))
      && |r2.warnings| == |r1.warnings| + hits
      && |r2.recommendations| == |r1.recommendations| + hits
  {
    var r1 := ReportedStep(r, db.reportedCases);
    assert r1.level == r.level || r1.level == Dangerous;
    var r2 := PrefixStep(r1, db.suspiciousPrefixes);
    assert r2.level == r1.level || r2.level == RaiseToCaution(r1.level);
    var r3 := PatternStep(r2, db.warningPatterns);
    assert r3.level == r2.level || r3.level == RaiseToCaution(r2.level);
    var r4 := InternationalStep(r3);
    assert r4.level == r3.level || r4.level == RaiseToCaution(r3.level);
  }

  /**
   The rules after the two short-circuits, in source order: reports,
   suspicious prefixes, warning patterns, the international rule, then the
   detail lines and the reassurance for a result still 安全.
   */
  function RunRules(number: string, normalized: string, db: PhoneDb): (r: PhoneResult)
    ensures r.original == number && r.normalized == normalized
    ensures
      var m := MatchingCases(db.reportedCases, number);
      var prefixHits := PrefixHits(db.suspiciousPrefixes, normalized);
      var patternHits := PrefixHits(db.warningPatterns, number);
      var intl := IsInternational(number, normalized);
      && (r.level == Dangerous <==> |m| > 0)
      && (r.level == Caution <==> |m| == 0 && (|prefixHits| > 0 || |patternHits| > 0 || intl))
      && (r.level == Safe <==> |m| == 0 && |prefixHits| == 0 && |patternHits| == 0 && !intl)
      && r.warnings ==
           ReportWarnings(m) + PrefixWarnings(prefixHits) + Repeat(CautionPattern, |patternHits|)
           + (if intl then [InternationalCall] else [])
      && r.details ==
           ReportDetails(m) + [TypeDetail(NumberTypeOf(normalized)), AreaDetail(AreaOf(number))]
      && r.recommendations ==
           Repeat(TakeCare, |prefixHits|) + (if intl then [IgnoreIfUnknown] else [])
           + (if r.level == Safe then [NothingDetected, BewareOfRequests] else [])
  {
    var m := MatchingCases(db.reportedCases, number);
    var prefixHits := PrefixHits(db.suspiciousPrefixes, normalized);
    var patternHits := PrefixHits(db.warningPatterns, number);
    var intl := IsInternational(number, normalized);
    var r1 := ReportedStep(PhoneResult(number, normalized, Safe, [], [], []), db.reportedCases);
    assert r1.level == (if |m| > 0 then Dangerous else Safe);
    assert r1.warnings == ReportWarnings(m) && r1.details == ReportDetails(m) && r1.recommendations == [];
    var r2 := PrefixStep(r1, db.suspiciousPrefixes);
    assert r2.warnings == ReportWarnings(m) + PrefixWarnings(prefixHits);
    assert r2.recommendations == Repeat(TakeCare, |prefixHits|);
    var r3 := PatternStep(r2, db.warningPatterns);
    assert r3.level == Dangerous <==> |m| > 0;
    assert r3.level == Safe <==> |m| == 0 && |prefixHits| == 0 && |patternHits| == 0;
    assert r3.level.Ordered();
    var r4 := InternationalStep(r3);
    assert r4.level == Safe <==> |m| == 0 && |prefixHits| == 0 && |patternHits| == 0 && !intl;
    FinishStep(r4)
  }

  /**
   `analyze_phone_number`: the emergency and known-scam short-circuits (not
   recorded in the history), then every other rule; that full result is
   appended to the history.
   */
  function AnalyzePhone(number: string, db: PhoneDb, history: seq<PhoneResult>): (c: PhoneCheck)
    ensures c.result.original == number && c.result.normalized == Normalize(number)
    ensures Normalize(number) in EmergencyCodes ==>
      && c.result.level == Emergency
      && c.result.warnings == [] && c.result.details == [EmergencyNumber] && c.result.recommendations == []
      && c.history == history
    ensures Normalize(number) !in EmergencyCodes && number in db.knownScamNumbers ==>
      && c.result.level == Dangerous
      && c.result.warnings == [KnownScamNumber] && c.result.details == []
      && c.result.recommendations == [DoNotAnswer, BlockNumber]
      && c.history == history
    ensures Normalize(number) !in EmergencyCodes && number !in db.knownScamNumbers ==>
      && c.history == history + [c.result]
      && c.result == RunRules(number, Normalize(number), db)
  {
    var normalized := Normalize(number);
    var start := PhoneResult(number, normalized, Safe, [], [], []);
    if normalized in EmergencyCodes then
      PhoneCheck(start.(level := Emergency, details := [EmergencyNumber]), history)
    else if number in db.knownScamNumbers then
      PhoneCheck(start.(level := Dangerous, warnings := [KnownScamNumber],
                        recommendations := [DoNotAnswer, BlockNumber]), history)
    else
      var r := RunRules(number, normalized, db);
      PhoneCheck(r, history + [r])
  }

  /** The prefix warnings name exactly the prefixes they were built from. */
  lemma {:induction false} PrefixWarningsName(h: seq<string>, p: string)
    ensures SuspiciousPrefix(p) in PrefixWarnings(h) <==> p in h
    decreases |h|
  {
    if |h| > 0 {
      PrefixWarningsName(h[1..], p);
      assert h == [h[0]] + h[1..];
    }
  }

  /** The report warnings never name a prefix. */
  lemma {:induction false} ReportWarningsNameNoPrefix(m: seq<ReportedCase>, p: string)
    ensures SuspiciousPrefix(p) !in ReportWarnings(m)
    decreases |m|
  {
    if |m| > 0 {
      ReportWarningsNameNoPrefix(m[1..], p);
    }
  }

  /**
   A result warns about a suspicious prefix exactly when neither
   short-circuit applied, the prefix is listed, and the normalised number
   starts with it.
   */
  lemma SuspiciousPrefixWarning(number: string, db: PhoneDb, history: seq<PhoneResult>, p: string)
    ensures SuspiciousPrefix(p) in AnalyzePhone(number, db, history).result.warnings <==>
      && Normalize(number) !in EmergencyCodes
      && number !in db.knownScamNumbers
      && p in db.suspiciousPrefixes
      && StartsWith(Normalize(number), p)
  {
    var normalized := Normalize(number);
    if normalized !in EmergencyCodes && number !in db.knownScamNumbers {
      var m := MatchingCases(db.reportedCases, number);
      var prefixHits := PrefixHits(db.suspiciousPrefixes, normalized);
      var patternHits := PrefixHits(db.warningPatterns, number);
      var intl := IsInternational(number, normalized);
      var ws := AnalyzePhone(number, db, history).result.warnings;
      var tail: seq<PhoneWarning> := if intl then [InternationalCall] else [];
      assert ws == ReportWarnings(m) + PrefixWarnings(prefixHits) + Repeat(CautionPattern, |patternHits|) + tail;
      ReportWarningsNameNoPrefix(m, p);
      PrefixWarningsName(prefixHits, p);
      PrefixHitsSpec(db.suspiciousPrefixes, normalized);
      assert SuspiciousPrefix(p) !in Repeat(CautionPattern, |patternHits|);
      assert SuspiciousPrefix(p) !in tail;
    }
  }

  /**
   A listed prefix holding a character normalisation deletes never draws a
   warning: it is compared with the normalised number, which holds no such
   character.
   */
  lemma StrippedPrefixNeverMatches(number: string, db: PhoneDb, history: seq<PhoneResult>, p: string, i: nat)
    requires i < |p| && IsStripped(p[i])
    ensures SuspiciousPrefix(p) !in AnalyzePhone(number, db, history).result.warnings
  {
    SuspiciousPrefixWarning(number, db, history, p);
    var n := Normalize(number);
    if |p| <= |n| {
      assert n[..|p|][i] == n[i];
      assert !IsStripped(n[..|p|][i]);
    }
  }
}
