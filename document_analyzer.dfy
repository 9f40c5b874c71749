/** The backend's verdict computation: document classification, company facts,
    the deduction-based legitimacy score and the assembled verdict.

    Every `re.search` of the source is an input boolean here, the whois reply and
    the clock are inputs, and the score is kept in integer tenths (10 is 1.0). */
module DocumentAnalyzer {
  import opened Wrappers
  import opened Strings

  // ---------------------------------------------------------------- patterns

  /** Document types in the order the classifier visits them. */
  const DocTypeNames: seq<string> := ["offer_letter", "internship_letter", "call_letter"]

  const DocTypePatterns: seq<seq<string>> := [
    [@"offer\s+letter", @"employment\s+offer", @"job\s+offer", @"position\s+offer"],
    [@"internship\s+letter", @"intern\s+offer", @"internship\s+program"],
    [@"call\s+letter", @"interview\s+call", @"selection\s+letter"]
  ]

  const DefaultDocType: string := "offer_letter"

  const SuspiciousPatterns: seq<string> := [
    @"urgent\s+job\s+offer",
    @"immediate\s+joining",
    @"work\s+from\s+home.*\$\d+",
    @"payment\s+required",
    @"application\s+fee",
    @"processing\s+fee",
    @"security\s+deposit",
    @"need\s+to\s+pay",
    @"gmail\.com|yahoo\.com|hotmail\.com"
  ]

  // ---------------------------------------------------------------- company facts

  /** The Python values a whois creation date can take: `None`, a `datetime`
      (seconds since an epoch), any other value such as a string, or a list. */
  datatype DateValue =
    | NoDate
    | DateTime(seconds: int)
    | Text(s: string)
    | DateList(items: seq<DateValue>)

  /** Python truthiness of a date value. */
  predicate DateTruthy(d: DateValue) {
    match d
    case NoDate => false
    case DateTime(_) => true
    case Text(s) => |s| > 0
    case DateList(items) => |items| > 0
  }

  /** Python truthiness of an optional string. */
  predicate StringTruthy(s: Option<string>) {
    s.Some? && |s.value| > 0
  }

  datatype CompanyInfo = CompanyInfo(
    name: Option<string>,
    domain: Option<string>,
    verified: bool,
    registrationDate: DateValue)

  /** What `whois.whois(domain)` gave: an exception, or a record whose
      `domain_name` is truthy or not, with its `creation_date`. */
  datatype WhoisReply = LookupRaised | Record(hasDomainName: bool, creationDate: DateValue)

  /** A list-valued date becomes its first element, or `None` when empty. */
  function NormaliseDate(d: DateValue): (r: DateValue)
    ensures d.DateList? && |d.items| > 0 ==> r == d.items[0]
    ensures d.DateList? && |d.items| == 0 ==> r == NoDate
    ensures !d.DateList? ==> r == d
  {
    match d
    case DateList(items) => if |items| > 0 then items[0] else NoDate
    case _ => d
  }

  /** `_extract_company_info` with the two regex captures and the whois reply as
      inputs (`companyName` is the stripped first capture group). */
  function ExtractCompanyInfo(companyName: Option<string>, emailDomain: Option<string>, whois: WhoisReply): (info: CompanyInfo)
    ensures info.name == companyName && info.domain == emailDomain
    ensures info.verified <==> StringTruthy(emailDomain) && whois.Record? && whois.hasDomainName
    ensures !StringTruthy(emailDomain) ==> !info.verified && info.registrationDate == NoDate
    ensures info.verified ==> info.registrationDate == NormaliseDate(whois.creationDate)
    ensures !info.verified ==> info.registrationDate == NoDate
  {
    var unverified := CompanyInfo(companyName, emailDomain, false, NoDate);
    if !StringTruthy(emailDomain) then unverified
    else
      match whois
      case LookupRaised => unverified
      case Record(hasDomainName, creationDate) =>
        if hasDomainName then CompanyInfo(companyName, emailDomain, true, NormaliseDate(creationDate))
        else unverified
  }

  // ---------------------------------------------------------------- deductions

  /** The warnings the scorer appends; `WarningText` gives each one's text. */
  datatype Warning =
    | DomainUnverified
    | DomainNew
    | DateFormatUnknown
    | DateMissing
    | NameMissing
    | SuspiciousPattern(pattern: string)
    | ScoreReduction(matched: nat)

  /** The fee and payment patterns get the "Critical Warning" text. */
  predicate IsCritical(pattern: string) {
    Contains(pattern, "fee") || Contains(pattern, "deposit") || Contains(pattern, "pay") || Contains(pattern, "payment")
  }

  const CriticalPrefix: string := "Critical Warning: "

  function WarningText(w: Warning): string {
    match w
    case DomainUnverified => "Company domain could not be verified or does not exist (-50% score)"
    case DomainNew => "Company domain is relatively new (< 90 days old) (-10% score)"
    case DateFormatUnknown => "Could not determine domain registration date format."
    case DateMissing => "Domain registration date not found, skipping age check."
    case NameMissing => "Company name could not be detected in the text (-30% score)"
    case SuspiciousPattern(p) =>
      if IsCritical(p) then CriticalPrefix + "Suspicious pattern '" + p + "' detected (potential scam indicator) (-20% score)"
      else "Suspicious pattern '" + p + "' detected (-20% score)"
    case ScoreReduction(n) =>
      "Total score reduction from " + NatToString(n) + " suspicious patterns: -" + NatToString(n * 20) + "%"
  }

  /** The texts of a list of warnings, in the same order. */
  function WarningTexts(ws: seq<Warning>): (ts: seq<string>)
    ensures |ts| == |ws|
    ensures forall i :: 0 <= i < |ws| ==> ts[i] == WarningText(ws[i])
  {
    seq(|ws|, i requires 0 <= i < |ws| => WarningText(ws[i]))
  }

  datatype Check = Check(deduction: nat, warnings: seq<Warning>)

  const SecondsPerDay: int := 86400
  const NewDomainDays: int := 90

  /** `timedelta.days` of `now - registered`: whole days, rounded down. */
  function AgeInDays(registered: int, now: int): (days: int)
    ensures days * SecondsPerDay <= now - registered < (days + 1) * SecondsPerDay
  {
    (now - registered) / SecondsPerDay
  }

  /** The instant the age check reads: only a truthy date whose value (after
      taking a list's first element) is a `datetime` has one. */
  function CheckedInstant(d: DateValue): (t: Option<int>)
    ensures t.Some? ==> DateTruthy(d)
    ensures d.DateTime? ==> t == Some(d.seconds)
    ensures d.NoDate? || d.Text? ==> t == None
    ensures d.DateList? && |d.items| > 0 ==>
              t == (if d.items[0].DateTime? then Some(d.items[0].seconds) else None)
  {
    if !DateTruthy(d) then None
    else
      var v := if d.DateList? then d.items[0] else d;
      if v.DateTime? then Some(v.seconds) else None
  }

  /** Steps 1 and 2: domain verification, and the age check when verified. */
  function DomainCheck(info: CompanyInfo, now: int): (c: Check)
    ensures !info.verified ==> c == Check(5, [DomainUnverified])
    ensures info.verified ==> c.deduction <= 1 && |c.warnings| <= 1
    ensures info.verified ==>
      (c.deduction == 1 <==> CheckedInstant(info.registrationDate).Some?
                             && AgeInDays(CheckedInstant(info.registrationDate).value, now) < NewDomainDays)
    ensures info.verified && c.deduction == 1 ==> c.warnings == [DomainNew]
    ensures info.verified && !DateTruthy(info.registrationDate) ==> c == Check(0, [DateMissing])
    ensures info.verified && DateTruthy(info.registrationDate) && CheckedInstant(info.registrationDate).None?
            ==> c == Check(0, [DateFormatUnknown])
    ensures info.verified && CheckedInstant(info.registrationDate).Some?
            && AgeInDays(CheckedInstant(info.registrationDate).value, now) >= NewDomainDays
            ==> c == Check(0, [])
  {
    if !info.verified then Check(5, [DomainUnverified])
    else if !DateTruthy(info.registrationDate) then Check(0, [DateMissing])
    else
      match CheckedInstant(info.registrationDate)
      case None => Check(0, [DateFormatUnknown])
      case Some(t) =>
        if AgeInDays(t, now) < NewDomainDays then Check(1, [DomainNew]) else Check(0, [])
  }

  /** Step 3: the company-name check. */
  function NameCheck(info: CompanyInfo): (c: Check)
    ensures !StringTruthy(info.name) <==> c == Check(3, [NameMissing])
    ensures StringTruthy(info.name) <==> c == Check(0, [])
  {
    if !StringTruthy(info.name) then Check(3, [NameMissing]) else Check(0, [])
  }

  /** Number of `true` entries. */
  function CountTrue(bs: seq<bool>): (n: nat)
    ensures n <= |bs|
  {
    if bs == [] then 0 else CountTrue(bs[..|bs| - 1]) + (if bs[|bs| - 1] then 1 else 0)
  }

  /** Step 4: one warning per matching pattern, in the order of the pattern list. */
  function PatternWarnings(patterns: seq<string>, hits: seq<bool>): (ws: seq<Warning>)
    requires |patterns| == |hits|
    ensures |ws| == CountTrue(hits)
  {
    if hits == [] then []
    else
      var n := |hits| - 1;
      PatternWarnings(patterns[..n], hits[..n]) + (if hits[n] then [SuspiciousPattern(patterns[n])] else [])
  }

  /** Extending the visited prefix by one pattern appends at most its warning. */
  lemma PatternWarningsStep(patterns: seq<string>, hits: seq<bool>, i: nat)
    requires |patterns| == |hits| && i < |hits|
    ensures CountTrue(hits[..i + 1]) == CountTrue(hits[..i]) + (if hits[i] then 1 else 0)
    ensures PatternWarnings(patterns[..i + 1], hits[..i + 1])
         == PatternWarnings(patterns[..i], hits[..i]) + (if hits[i] then [SuspiciousPattern(patterns[i])] else [])
  {
    assert hits[..i + 1][..i] == hits[..i];
    assert patterns[..i + 1][..i] == patterns[..i];
  }

  /** The closing summary, present iff at least one pattern matched. */
  function SummaryWarnings(matched: nat): (ws: seq<Warning>)
    ensures |ws| == (if matched > 0 then 1 else 0)
  {
    if matched > 0 then [ScoreReduction(matched)] else []
  }

  /** The score before clamping. */
  function RawScore(info: CompanyInfo, now: int, hits: seq<bool>): int {
    10 - DomainCheck(info, now).deduction - NameCheck(info).deduction - 2 * CountTrue(hits)
  }

  /** `max(0.0, min(1.0, score))` in tenths. */
  function Clamp(score: int): (r: int)
    ensures 0 <= r <= 10
    ensures 0 <= score <= 10 ==> r == score
    ensures score < 0 ==> r == 0
  {
    if score < 0 then 0 else if score > 10 then 10 else score
  }

  /** The warnings in the order the scorer appends them. */
  function ExpectedWarnings(info: CompanyInfo, now: int, patterns: seq<string>, hits: seq<bool>): (ws: seq<Warning>)
    requires |hits| == |patterns|
    ensures var n := CountTrue(hits);
      |ws| == |DomainCheck(info, now).warnings| + |NameCheck(info).warnings| + n + (if n > 0 then 1 else 0)
    ensures ws[..|DomainCheck(info, now).warnings|] == DomainCheck(info, now).warnings
    ensures (CountTrue(hits) > 0) <==> ws != [] && ws[|ws| - 1] == ScoreReduction(CountTrue(hits))
  {
    DomainCheck(info, now).warnings + NameCheck(info).warnings
    + PatternWarnings(patterns, hits) + SummaryWarnings(CountTrue(hits))
  }

  /** Steps 1 and 2 of `_calculate_legitimacy_score` as they run: the amount
      they take off the score and the warnings they append. */
  method CheckDomain(info: CompanyInfo, now: int) returns (deduction: nat, warnings: seq<Warning>)
    ensures Check(deduction, warnings) == DomainCheck(info, now)
  {
    deduction := 0;
    warnings := [];
    if !info.verified {
      deduction := 5;
      warnings := warnings + [DomainUnverified];
    } else {
      var regDate := info.registrationDate;
      if DateTruthy(regDate) {
        if regDate.DateList? {
          regDate := regDate.items[0];
        }
        if regDate.DateTime? {
          var domainAge := AgeInDays(regDate.seconds, now);
          if domainAge < NewDomainDays {
            deduction := 1;
            warnings := warnings + [DomainNew];
          }
        } else {
          warnings := warnings + [DateFormatUnknown];
        }
      } else {
        warnings := warnings + [DateMissing];
      }
    }
  }

  /** Step 4's loop as it runs from a running `score` and `warnings`: each
      matching pattern takes 0.2 off and appends its warning, in list order. */
  method ScanPatterns(patterns: seq<string>, hits: seq<bool>, score0: int, warnings0: seq<Warning>)
    returns (score: int, numSuspicious: nat, warnings: seq<Warning>)
    requires |hits| == |patterns|
    ensures numSuspicious == CountTrue(hits)
    ensures score == score0 - 2 * numSuspicious
    ensures warnings == warnings0 + PatternWarnings(patterns, hits)
  {
    score := score0;
    warnings := warnings0;
    numSuspicious := 0;
    var i := 0;
    while i < |patterns|
      invariant 0 <= i <= |patterns|
      invariant numSuspicious == CountTrue(hits[..i])
      invariant score == score0 - 2 * numSuspicious
      invariant warnings == warnings0 + PatternWarnings(patterns[..i], hits[..i])
    {
      var pattern := patterns[i];
      PatternWarningsStep(patterns, hits, i);
      if hits[i] {
        score := score - 2;
        numSuspicious := numSuspicious + 1;
        warnings := warnings + [SuspiciousPattern(pattern)];
      }
      i := i + 1;
    }
    assert hits[..i] == hits && patterns[..i] == patterns;
  }

  /** `_calculate_legitimacy_score` over the analyzer's pattern list `patterns`
      (`SuspiciousPatterns` in the analyzer); `hits[i]` says whether pattern `i`
      matched the text. */
  method CalculateLegitimacyScore(info: CompanyInfo, patterns: seq<string>, hits: seq<bool>, now: int)
    returns (score: int, warnings: seq<Warning>)
    requires |hits| == |patterns|
    ensures 0 <= score <= 10
    ensures score == Clamp(RawScore(info, now, hits))
    ensures warnings == ExpectedWarnings(info, now, patterns, hits)
  {
    score := 10;
    warnings := [];

    var domainDeduction, domainWarnings := CheckDomain(info, now);
    score := score - domainDeduction;
    warnings := warnings + domainWarnings;
    assert score == ScoreTrace(info, now, hits)[1];

    if !StringTruthy(info.name) {
      score := score - 3;
      warnings := warnings + [NameMissing];
    }
    assert score == ScoreTrace(info, now, hits)[2];
    assert warnings == DomainCheck(info, now).warnings + NameCheck(info).warnings;

    var numSuspicious;
    score, numSuspicious, warnings := ScanPatterns(patterns, hits, score, warnings);
    ScoreNeverIncreases(info, now, hits, 0, |hits| + 2);
    assert score == ScoreTrace(info, now, hits)[|hits| + 2];
    if numSuspicious > 0 {
      warnings := warnings + [ScoreReduction(numSuspicious)];
    }

    score := if score < 0 then 0 else if score > 10 then 10 else score;
  }

  // ---------------------------------------------------------------- properties

  /** The warning of matching pattern `i` sits at position "number of matches
      before `i`": the pattern warnings follow the pattern list's order. */
  lemma {:induction false} PatternWarningsInOrder(patterns: seq<string>, hits: seq<bool>, i: nat)
    requires |patterns| == |hits| && i < |hits| && hits[i]
    ensures CountTrue(hits[..i]) < |PatternWarnings(patterns, hits)|
    ensures PatternWarnings(patterns, hits)[CountTrue(hits[..i])] == SuspiciousPattern(patterns[i])
    decreases |hits|
  {
    var n := |hits| - 1;
    assert patterns[..n + 1] == patterns && hits[..n + 1] == hits;
    PatternWarningsStep(patterns, hits, n);
    if i < n {
      assert hits[..n][..i] == hits[..i];
      assert patterns[..n][i] == patterns[i];
      PatternWarningsInOrder(patterns[..n], hits[..n], i);
    } else {
      assert hits[..i] == hits[..n];
    }
  }

  /** Counting over a longer prefix never gives less. */
  lemma {:induction false} CountTruePrefixMonotone(hits: seq<bool>, i: nat, j: nat)
    requires i <= j <= |hits|
    ensures CountTrue(hits[..i]) <= CountTrue(hits[..j])
    decreases j - i
  {
    if i < j {
      assert hits[..j][..j - 1] == hits[..j - 1];
      CountTruePrefixMonotone(hits, i, j - 1);
    }
  }

  /** Matching more patterns never gives a higher count. */
  lemma {:induction false} CountTrueMonotone(fewer: seq<bool>, more: seq<bool>)
    requires |fewer| == |more|
    requires forall i :: 0 <= i < |fewer| && fewer[i] ==> more[i]
    ensures CountTrue(fewer) <= CountTrue(more)
    decreases |fewer|
  {
    if fewer != [] {
      var n := |fewer| - 1;
      CountTrueMonotone(fewer[..n], more[..n]);
    }
  }

  /** The value of `score` after each update: the start, after steps 1-2, after
      step 3, then after each pattern of step 4 (before clamping). */
  function ScoreTrace(info: CompanyInfo, now: int, hits: seq<bool>): (trace: seq<int>)
    ensures |trace| == |hits| + 3
  {
    var afterName := 10 - DomainCheck(info, now).deduction - NameCheck(info).deduction;
    [10, 10 - DomainCheck(info, now).deduction, afterName]
    + seq(|hits|, k requires 0 <= k < |hits| => afterName - 2 * CountTrue(hits[..k + 1]))
  }

  /** The score never increases at any step, starts at 1.0 and ends at the raw score. */
  lemma ScoreNeverIncreases(info: CompanyInfo, now: int, hits: seq<bool>, i: nat, j: nat)
    requires i <= j < |hits| + 3
    ensures ScoreTrace(info, now, hits)[0] == 10
    ensures ScoreTrace(info, now, hits)[|hits| + 2] == RawScore(info, now, hits)
    ensures ScoreTrace(info, now, hits)[j] <= ScoreTrace(info, now, hits)[i]
  {
    assert hits[..|hits|] == hits;
    if 3 <= i {
      CountTruePrefixMonotone(hits, i - 2, j - 2);
    } else if 3 <= j {
      CountTruePrefixMonotone(hits, 0, j - 2);
    }
  }

  /** Matching more suspicious patterns never raises the final score. */
  lemma MoreMatchesNeverRaiseScore(info: CompanyInfo, now: int, fewer: seq<bool>, more: seq<bool>)
    requires |fewer| == |more|
    requires forall i :: 0 <= i < |fewer| && fewer[i] ==> more[i]
    ensures RawScore(info, now, more) <= RawScore(info, now, fewer)
    ensures Clamp(RawScore(info, now, more)) <= Clamp(RawScore(info, now, fewer))
  {
    CountTrueMonotone(fewer, more);
  }

  /** When the final score clears the 0.5 threshold. */
  lemma LegitimacyThreshold(info: CompanyInfo, now: int, hits: seq<bool>)
    ensures Clamp(RawScore(info, now, hits)) > 5 ==> info.verified && CountTrue(hits) <= 2
    ensures info.verified && !StringTruthy(info.name) ==>
              (Clamp(RawScore(info, now, hits)) > 5 <==> CountTrue(hits) == 0)
    ensures info.verified && StringTruthy(info.name) && DomainCheck(info, now).deduction == 0 ==>
              (Clamp(RawScore(info, now, hits)) > 5 <==> CountTrue(hits) <= 2)
    ensures info.verified && StringTruthy(info.name) && DomainCheck(info, now).deduction == 1 ==>
              (Clamp(RawScore(info, now, hits)) > 5 <==> CountTrue(hits) <= 1)
  {
  }

  /** A pattern warning carries the critical prefix exactly when its pattern
      contains one of the fee or payment keywords. */
  lemma CriticalTextIffKeyword(pattern: string)
    ensures StartsWith(WarningText(SuspiciousPattern(pattern)), CriticalPrefix) <==> IsCritical(pattern)
  {
    var t := WarningText(SuspiciousPattern(pattern));
    if !IsCritical(pattern) {
      assert t[0] == 'S';
    }
  }

  // ---------------------------------------------------------------- classification

  /** Type `k` has the greatest match count and every earlier type has fewer. */
  ghost predicate IsFirstMaximum(hits: seq<seq<bool>>, k: int) {
    && 0 <= k < |hits|
    && (forall j :: 0 <= j < |hits| ==> CountTrue(hits[j]) <= CountTrue(hits[k]))
    && (forall j :: 0 <= j < k ==> CountTrue(hits[j]) < CountTrue(hits[k]))
  }

  /** `_classify_document_type`; `hits[t][p]` says whether pattern `p` of type `t` matched. */
  method ClassifyDocumentType(hits: seq<seq<bool>>) returns (bestType: string)
    requires |hits| == |DocTypeNames|
    requires forall t :: 0 <= t < |hits| ==> |hits[t]| == |DocTypePatterns[t]|
    ensures (forall t :: 0 <= t < |hits| ==> CountTrue(hits[t]) == 0) ==> bestType == DefaultDocType
    ensures (exists t :: 0 <= t < |hits| && CountTrue(hits[t]) > 0) ==>
              exists k :: IsFirstMaximum(hits, k) && bestType == DocTypeNames[k]
  {
    var maxMatches := 0;
    bestType := DefaultDocType;
    ghost var bestIndex := -1;
    var t := 0;
    while t < |hits|
      invariant 0 <= t <= |hits|
      invariant forall j :: 0 <= j < t ==> CountTrue(hits[j]) <= maxMatches
      invariant maxMatches == 0 ==> bestType == DefaultDocType
      invariant maxMatches > 0 ==>
        && 0 <= bestIndex < t
        && CountTrue(hits[bestIndex]) == maxMatches
        && bestType == DocTypeNames[bestIndex]
        && (forall j :: 0 <= j < bestIndex ==> CountTrue(hits[j]) < maxMatches)
    {
      var matches := CountTrue(hits[t]);
      if matches > maxMatches {
        maxMatches := matches;
        bestType := DocTypeNames[t];
        bestIndex := t;
      }
      t := t + 1;
    }
    if maxMatches > 0 {
      assert IsFirstMaximum(hits, bestIndex);
    }
  }

  // ---------------------------------------------------------------- verdict

  /** The dictionary `analyze_text` returns; scores in tenths. */
  datatype Verdict = Verdict(
    documentType: string,
    legitimacyScore: int,
    isLegitimate: bool,
    confidenceScore: int,
    companyInfo: CompanyInfo,
    warnings: seq<Warning>)

  /** `analyze_text`, with the regex outcomes, the whois reply and the clock as inputs. */
  method AnalyzeText(
    typeHits: seq<seq<bool>>, companyName: Option<string>, emailDomain: Option<string>,
    whois: WhoisReply, suspiciousHits: seq<bool>, now: int)
    returns (v: Verdict)
    requires |typeHits| == |DocTypeNames|
    requires forall t :: 0 <= t < |typeHits| ==> |typeHits[t]| == |DocTypePatterns[t]|
    requires |suspiciousHits| == |SuspiciousPatterns|
    ensures v.documentType in DocTypeNames
    ensures (forall t :: 0 <= t < |typeHits| ==> CountTrue(typeHits[t]) == 0) ==> v.documentType == DefaultDocType
    ensures (exists t :: 0 <= t < |typeHits| && CountTrue(typeHits[t]) > 0) ==>
              exists k :: IsFirstMaximum(typeHits, k) && v.documentType == DocTypeNames[k]
    ensures v.companyInfo == ExtractCompanyInfo(companyName, emailDomain, whois)
    ensures 0 <= v.legitimacyScore <= 10
    ensures v.legitimacyScore == Clamp(RawScore(v.companyInfo, now, suspiciousHits))
    ensures v.warnings == ExpectedWarnings(v.companyInfo, now, SuspiciousPatterns, suspiciousHits)
    ensures v.isLegitimate <==> v.legitimacyScore > 5
    ensures v.confidenceScore == v.legitimacyScore
  {
    var docType := ClassifyDocumentType(typeHits);
    var companyInfo := ExtractCompanyInfo(companyName, emailDomain, whois);
    var score, warnings := CalculateLegitimacyScore(companyInfo, SuspiciousPatterns, suspiciousHits, now);
    v := Verdict(docType, score, score > 5, score, companyInfo, warnings);
  }

  /** Outcome of an analysis call: a verdict, or the text of the exception raised. */
  datatype Analysis = Analyzed(verdict: Verdict) | Raised(message: string)

  const PdfErrorPrefix: string := "Error processing PDF: "

  /** `analyze_pdf`: any exception from reading or analysing becomes a `ValueError`
      whose text is the prefix followed by the original text. */
  function AnalyzePdf(run: Analysis): (r: Analysis)
    ensures r.Analyzed? <==> run.Analyzed?
    ensures r.Analyzed? ==> r.verdict == run.verdict
    ensures r.Raised? ==> StartsWith(r.message, PdfErrorPrefix) && r.message[|PdfErrorPrefix|..] == run.message
  {
    match run
    case Analyzed(v) => run
    case Raised(e) => Raised(PdfErrorPrefix + e)
  }
}
