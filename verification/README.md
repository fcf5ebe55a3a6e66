# Scam checker core in Dafny

This project models the rule-based core of a Streamlit application that helps
Japanese users judge whether a URL, an e-mail or a phone number is a scam. It
covers four parts:

- **URL analyser** (`analyze_url_local`). It checks known scam domains,
  dangerous patterns, plain http and short-link hosts. The result is a level
  (安全, 注意, 危険 or エラー), a score, warnings and details.
- **E-mail analyser** (`analyze_email_local`). It checks suspicious keywords
  and the URLs in the body, judging at most five of them with the URL
  analyser. Urgent wording adds a score bonus.
- **Phone analyser** (`analyze_phone_number`, `identify_number_type`,
  `identify_area`). It normalises the number, then applies the emergency and
  known-scam short-circuits, the user reports, suspicious prefixes, warning
  patterns and the international rule, and finally the type and area details.
  A full check is appended to the history.
- **Store updates.** Four things change the session's data:
  - a phone report is merged into the reported cases;
  - a number is added to the known scam numbers;
  - a site report is recorded;
  - the refresh button copies the host of every reported site into the
    dangerous domains.

Every operation is a pure function from the old state to the new one.
Session state becomes explicit parameters and results. These parts of the
program are parameters too:

- `urlparse` is a `Parser`, which returns the parts or the exception text;
- `re.search` over the dangerous URL patterns is a `Matcher`;
- the check history is a sequence that is passed in and returned.

Modules:

- `Text`: `startswith`, substring search, ASCII lower-casing, Python's `\s`
  and decimal rendering.
- `Verdict`: the levels and the escalation 安全 → 注意.
- `UrlAnalysis`, `EmailAnalysis` and `PhoneAnalysis`: the three analysers.
- `StoreUpdates`: the store mutations.
- `Defaults`: the phone database a session starts with, and the two findings below.

## Model

| member | source | states |
|---|---|---|
| UrlAnalysis.AnalyzeUrl | a/Laevateinn0131.py:124-181 | The result is エラー exactly when parsing fails or the host is empty. Otherwise it is 危険/95 exactly when the lower-cased host contains a known domain. If not, it is 注意 when a pattern matches (60) or the scheme is http (40). Everything else is 安全/10. The warnings list, in order: known site, suspicious pattern, not encrypted, short link. The details are the host, the scheme and the path (`/` when the path is empty). |
| UrlAnalysis.PatternStep | a/Laevateinn0131.py:151-157 | The first matching pattern raises 安全 to 注意 with score 60 and adds one warning. Any other level is kept. When no pattern matches, nothing changes. |
| UrlAnalysis.AtMostOnePatternWarning | a/Laevateinn0131.py:151-157 | Because of the `break`, a result names the pattern warning at most once. It names it exactly when some pattern matches a URL whose host is non-empty. |
| UrlAnalysis.KnownDomainAlwaysDangerous | a/Laevateinn0131.py:145-148 | A host that contains a known domain gives 危険/95, with the known-site warning first. The later rules never lower this. |
| EmailAnalysis.ExtractUrls | a/Laevateinn0131.py:204 | Every extracted URL matches one alternative of the pattern in full and occurs in the body. |
| EmailAnalysis.ExtractSplitsAtDelimiter | a/Laevateinn0131.py:204 | Whitespace, `<`, `>` or `"` splits extraction: the URLs of `a c b` are the URLs of `a` followed by those of `b`. |
| EmailAnalysis.ExtractWholeToken | a/Laevateinn0131.py:204 | A string that is one whole URL token is extracted as exactly itself. |
| EmailAnalysis.FoundKeywords | a/Laevateinn0131.py:192-196 | A keyword is found exactly when its lower-case form occurs in the lower-cased body. |
| EmailAnalysis.FoundKeywordsOfOne | a/Laevateinn0131.py:192-196 | A single keyword is kept exactly when its lower-case form occurs in the lower-cased body. |
| EmailAnalysis.FoundKeywordsAppend | a/Laevateinn0131.py:192-196 | The hits come in database order, repeats included: the hits of `a + b` are the hits of `a` followed by those of `b`. With the single-keyword case this fixes the list, and so the three keywords the warning names. |
| EmailAnalysis.TallyUrls | a/Laevateinn0131.py:207-216 | A 危険 URL anywhere gives 危険/90. Otherwise a 注意 URL gives 注意 with a score of at least 60, unless the level is already 危険. The 危険 count equals the number of 危険 URLs. |
| EmailAnalysis.CheckedLevelsIgnoresLaterUrls | a/Laevateinn0131.py:207-208 | Only the first five extracted URLs are judged: appending URLs after the fifth leaves the judged levels unchanged. |
| EmailAnalysis.AnalyzeEmail | a/Laevateinn0131.py:183-227 | The score stays within 10..100. The base score is 90, 60, 50 or 10 (危険 URL, 注意 URL, keyword, nothing); urgent wording adds 20, capped at 100. There are exact if-and-only-if conditions for each level. The URL count is a detail. The warnings are: at most three keywords named, the 危険 URL count, and urgency. |
| PhoneAnalysis.Normalize | a/Laevateinn0131.py:630 | The result is no longer than the input and holds no hyphen, whitespace or parenthesis. |
| PhoneAnalysis.NormalizeKeepsOthers | a/Laevateinn0131.py:630 | Every other character is kept as often as it occurs. |
| PhoneAnalysis.NormalizeAppend | a/Laevateinn0131.py:630 | Normalisation distributes over concatenation. |
| PhoneAnalysis.NormalizeDropsHyphen | a/Laevateinn0131.py:630 | A hyphen is deleted wherever it stands. |
| PhoneAnalysis.NormalizeFixedPoints | a/Laevateinn0131.py:630 | Normalisation leaves a string unchanged exactly when the string has no deletable character. |
| PhoneAnalysis.NormalizeIdempotent | a/Laevateinn0131.py:630 | Normalising twice is the same as normalising once. |
| PhoneAnalysis.NumberTypeOf | a/Laevateinn0131.py:598-613 | Each number type comes with an if-and-only-if condition on the prefixes, in the order of the `elif` chain. For example, 0800 is free dial, not mobile, even though it starts with 080. |
| PhoneAnalysis.LookupAreaFindsTheMatch | a/Laevateinn0131.py:614-627 | In a prefix-free table, the area found is the one whose code prefixes the number, whatever the table order. |
| PhoneAnalysis.AreaCodesPrefixFree | a/Laevateinn0131.py:616-623 | No area code is a prefix of another. |
| PhoneAnalysis.AreaOfIsTheMatchingCode | a/Laevateinn0131.py:614-627 | The area is the one whose code prefixes the original number. It is unknown exactly when no code does. |
| PhoneAnalysis.MatchingCasesSpec | a/Laevateinn0131.py:653-657 | The matching reports are exactly the reports whose number equals the original input. |
| PhoneAnalysis.PrefixHitsSpec | a/Laevateinn0131.py:659-670 | The prefixes hit are exactly the listed ones the number starts with. |
| PhoneAnalysis.RulesNeverLowerTheLevel | a/Laevateinn0131.py:652-676 | After the short-circuits, no rule lowers the level: reports only raise it to 危険, and the prefix, pattern and international rules only move 安全 to 注意. Each prefix hit adds exactly one warning and one recommendation. |
| PhoneAnalysis.RunRules | a/Laevateinn0131.py:652-683 | Any report on the number gives 危険. Otherwise the level is 注意 exactly when some prefix, pattern or the international rule applies, and 安全 otherwise. It also gives the exact warnings, details and recommendations, with the reassurance only for 安全. |
| PhoneAnalysis.AnalyzePhone | a/Laevateinn0131.py:628-686 | An emergency number gives 緊急 and a listed number gives 危険 with two recommendations; neither is added to the history. Every other number runs all the rules, and its result is appended to the history. |
| PhoneAnalysis.SuspiciousPrefixWarning | a/Laevateinn0131.py:659-664 | A prefix warning names a prefix exactly when three things hold: no short-circuit applied, the prefix is listed, and the normalised number starts with it. |
| PhoneAnalysis.StrippedPrefixNeverMatches | a/Laevateinn0131.py:659-664 | A listed prefix that contains a hyphen, whitespace or a parenthesis never draws a warning. |
| StoreUpdates.SubmitPhoneReport | a/Laevateinn0131.py:864-882 | An empty number changes nothing. The first case with the number gets one more report and a follow-up line with the new count, and all other cases stay unchanged. A new number is appended with one report and a `[category]` description. Unique numbers stay unique and every count stays at least 1. |
| StoreUpdates.ReportTwice | a/Laevateinn0131.py:864-882 | Reporting a new number twice leaves a single case with two reports. |
| StoreUpdates.AddKnownScamNumber | a/Laevateinn0131.py:906-907 | After an add, the list holds exactly the old entries plus the new number when it is non-empty. Old entries stay in place and no duplicate is created. |
| StoreUpdates.AddKnownScamNumberIdempotent | a/Laevateinn0131.py:906-907 | Adding the same number twice is the same as adding it once. |
| StoreUpdates.SubmitSiteReport | a/Laevateinn0131.py:480-487 | A report with a non-empty URL is appended and nothing else changes. |
| StoreUpdates.Refresh | a/Laevateinn0131.py:514-517 | Old domains stay as a prefix. Each added domain is non-empty, new, and one of the hosts `urlparse` gives the reports. When every report parses, every non-empty reported host ends up in the list, with its case kept. Distinct lists stay distinct. |
| StoreUpdates.RefreshAddsReportedHost | a/Laevateinn0131.py:514-517 | Each added domain is the host of some reported site that parses. |
| StoreUpdates.RefreshIdempotent | a/Laevateinn0131.py:514-517 | Pressing refresh twice gives the same list as pressing it once. |
| StoreUpdates.RefreshFlagsLowercaseHosts | a/Laevateinn0131.py:514-517 | After a refresh, a reported URL whose host is already lower-case is 危険. |
| Defaults.JamaicaPrefixNeverMatches | a/Laevateinn0131.py:579 | With the default database, no input ever draws the `+1-876` prefix warning. |
| Defaults.CorrectedJamaicaPrefixMatches | a/Laevateinn0131.py:579 | With the prefix written `+1876`, every unlisted number that normalises to start with it draws the warning. |
| Defaults.MixedCaseReportStaysSafe | a/Laevateinn0131.py:514-517 | A site reported with an upper-case host is stored as written and is still judged 安全 after the refresh. |
| StoreUpdates.RefreshLowered | a/Laevateinn0131.py:514-517 | The corrected refresh stores lower-cased hosts. Old entries stay as a prefix. Each added domain is non-empty, new, and a reported host lower-cased. When every report parses, every non-empty reported host, lower-cased, ends up in the list. Distinct lists stay distinct. |
| StoreUpdates.RefreshLoweredAddsReportedHost | a/Laevateinn0131.py:514-517 | Each domain the corrected refresh adds is the lower-cased host of some reported site that parses. |
| StoreUpdates.RefreshLoweredFlagsEveryReport | a/Laevateinn0131.py:514-517 | After the corrected refresh, every reported URL with a host is 危険. |

## Left out

- The page layout, forms, tabs, statistics and the styling of the results. They are user interface with no rules in them.
- The calls to the Gemini model and their prompts, because they are network calls to a service outside the program.
- The timestamps on results and reports, and the last-update time. They come from the clock and no rule reads them back.
- How `urlparse` works inside. The analysers receive its outcome as a `Parser`, and the model covers the exception case (the URL is judged エラー with the exception text).
- The dangerous URL patterns are ordinary regular expressions. They are kept as text and searched through the abstract `Matcher`. The phone warning patterns are all anchored literals (`^0120`, `^0570`, `^0990`, `^\+.*`), so they are modelled as prefixes.
- Text.Lower: lowers the ASCII letters A-Z only. Python's `str.lower` also lowers other cased letters, such as `Ä` or the full-width `Ａ`. Hosts and e-mail bodies are user input, so they can hold such letters, and then the model and the program disagree. Example: report `https://äpfel.de`, press refresh, then check `https://ÄPFEL.de`. The program lowers the host to `äpfel.de`, finds the stored domain, answers 危険 and shows `äpfel.de` as the domain. The model lowers only the ASCII letters, giving `Äpfel.de`. It finds nothing, answers 安全 and shows `Äpfel.de`.
- UrlAnalysis.AnalyzeUrl: the known-domain match and its detail are stated with the ASCII-only `Text.Lower`, so they differ from the program for hosts with non-ASCII capitals (see `Text.Lower`).
- EmailAnalysis.FoundKeywords: the keyword match uses the ASCII-only `Text.Lower`, so a body or keyword with non-ASCII capitals can match differently from the program (see `Text.Lower`).
- EmailAnalysis.AnalyzeEmail: the keyword and urgency matches use the ASCII-only `Text.Lower` (see `Text.Lower`).
- StoreUpdates.RefreshLowered: stores the ASCII-only lower-cased host (see `Text.Lower`).
- The contents of the default URL database (known domains, keywords, patterns). No rule or property here depends on particular entries, so the analysers take the database as a parameter.
- StoreUpdates.Refresh: when `urlparse` raises for one report, the handler ends there. The model keeps the hosts added before that report and visits none after it. Completeness is therefore stated only for the case where every report parses.
- The random pick in the call-simulation button, because it is randomness and feeds the phone analyser only through an ordinary input.

## Findings

| source | as written | input that shows it | evidently intended | confidence | as-written member | corrected member |
|---|---|---|---|---|---|---|
| a/Laevateinn0131.py:579 | The suspicious prefix `+1-876` is compared with the normalised number. Normalisation deletes every hyphen, so the prefix can never match. | `+1-876-555-1234` normalises to `+18765551234` and draws no Jamaica prefix warning. | Warn about every Jamaican number, i.e. a prefix written as a normalised number looks (`+1876`). | high (not executed) | Defaults.JamaicaPrefixNeverMatches | Defaults.CorrectedJamaicaPrefixMatches |
| a/Laevateinn0131.py:514-517 | The refresh stores the host of a reported site as `urlparse` returns it, with its case. The URL analyser looks for stored domains in the lower-cased host. | Report `https://X.jp/`, press refresh, then check the same URL: it is 安全, not 危険. | Store the lower-cased host, so that every reported site is judged 危険 afterwards. | medium (not executed) | Defaults.MixedCaseReportStaysSafe | StoreUpdates.RefreshLowered |
