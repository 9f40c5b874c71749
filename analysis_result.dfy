/** The result page: a pure mapping from the verdict carried in the navigation
    state (or its absence) to the page it shows.  Scores arrive in thousandths
    (873 is 0.873), so `score * 100` with one decimal is exact. */
module AnalysisResultPage {
  import opened Wrappers
  import opened Strings

  /** A JavaScript value where a string is expected. */
  datatype JsString = Null | Undefined | Str(s: string)

  /** JavaScript truthiness: `null`, `undefined` and `""` are falsy. */
  predicate Truthy(v: JsString) {
    v.Str? && |v.s| > 0
  }

  /** `v || fallback` for a string-valued `v`. */
  function OrElse(v: JsString, fallback: string): (r: string)
    ensures Truthy(v) ==> r == v.s
    ensures !Truthy(v) ==> r == fallback
  {
    if Truthy(v) then v.s else fallback
  }

  datatype CompanyInfo = CompanyInfo(name: JsString, domain: JsString, verified: bool)

  /** The response record; both scores in thousandths. */
  datatype Result = Result(
    id: string,
    documentType: string,
    legitimacyScore: nat,
    isLegitimate: bool,
    confidenceScore: nat,
    companyInfo: CompanyInfo,
    warnings: seq<string>)

  datatype Icon = SuccessIcon | ErrorIcon
  datatype BadgeColor = SuccessColor | WarningColor
  datatype Badge = Badge(caption: string, color: BadgeColor)

  /** A button and the route it navigates to; `None` for the download stub. */
  datatype Button = Button(caption: string, target: Option<string>)

  /** One list item of the warnings section, with its React key. */
  datatype WarningRow = WarningRow(key: nat, text: string)

  datatype Page =
    | NoResults(icon: Icon, message: string, back: Button)
    | Report(
        back: Button,
        icon: Icon,
        headline: string,
        confidence: string,
        documentType: string,
        progress: real,
        legitimacy: string,
        companyName: string,
        domain: string,
        badge: Badge,
        warnings: Option<seq<WarningRow>>,
        actions: seq<Button>)

  const NotDetected: string := "Not detected"
  const BackToHome: Button := Button("Back to Home", Some("/"))

  // ---------------------------------------------------------------- string helpers

  /** Position of the first `c` in `s`, or `|s|` when there is none. */
  function IndexOf(s: string, c: char): (k: nat)
    ensures k <= |s|
    ensures k < |s| ==> s[k] == c
    ensures forall j :: 0 <= j < k ==> s[j] != c
  {
    if s == [] then 0
    else if s[0] == c then 0
    else 1 + IndexOf(s[1..], c)
  }

  /** The first occurrence is the only position that satisfies `IndexOf`'s contract. */
  lemma IndexOfIs(s: string, c: char, k: nat)
    requires k < |s| && s[k] == c
    requires forall j :: 0 <= j < k ==> s[j] != c
    ensures IndexOf(s, c) == k
  {
  }

  /** `String.prototype.replace(from, to)` with string arguments of length one:
      only the first occurrence is replaced. */
  function ReplaceFirst(s: string, from: char, to: char): (r: string)
    ensures |r| == |s|
    ensures forall i :: 0 <= i < |s| ==> r[i] == (if i == IndexOf(s, from) then to else s[i])
  {
    if s == [] then []
    else if s[0] == from then [to] + s[1..]
    else [s[0]] + ReplaceFirst(s[1..], from, to)
  }

  function UpperChar(c: char): char {
    if 'a' <= c <= 'z' then (c as int - 32) as char else c
  }

  /** `String.prototype.toUpperCase` on ASCII letters. */
  function ToUpper(s: string): (r: string)
    ensures |r| == |s|
    ensures forall i :: 0 <= i < |s| ==> r[i] == UpperChar(s[i])
  {
    seq(|s|, i requires 0 <= i < |s| => UpperChar(s[i]))
  }

  /** `document_type.replace('_', ' ').toUpperCase()`: only the first
      underscore becomes a space, later ones survive. */
  function DocumentTypeLabel(documentType: string): (caption: string)
    ensures |caption| == |documentType|
    ensures forall i :: 0 <= i < |caption| && i != IndexOf(documentType, '_') ==> caption[i] == UpperChar(documentType[i])
    ensures IndexOf(documentType, '_') < |caption| ==> caption[IndexOf(documentType, '_')] == ' '
  {
    ToUpper(ReplaceFirst(documentType, '_', ' '))
  }

  /** A type is labelled at its first underscore: the part before it and the
      rest, each upper-cased, joined by a space; later underscores survive. */
  lemma {:induction false} LabelSplitsAtFirstUnderscore(head: string, tail: string)
    requires forall i :: 0 <= i < |head| ==> head[i] != '_'
    ensures DocumentTypeLabel(head + "_" + tail) == ToUpper(head) + " " + ToUpper(tail)
  {
    var t := head + "_" + tail;
    IndexOfIs(t, '_', |head|);
    var caption, expected := DocumentTypeLabel(t), ToUpper(head) + " " + ToUpper(tail);
    forall i | 0 <= i < |t|
      ensures caption[i] == expected[i]
    {
      if i > |head| {
        assert t[i] == tail[i - |head| - 1];
      }
    }
  }

  lemma DocumentTypeLabelExample()
    ensures DocumentTypeLabel("offer_letter") == "OFFER LETTER"
  {
    LabelSplitsAtFirstUnderscore("offer", "letter");
    UpperOffer();
    UpperLetter();
    OfferLetterSpelling();
  }

  /** The literals the example joins. */
  lemma OfferLetterSpelling()
    ensures "offer" + "_" + "letter" == "offer_letter"
    ensures "OFFER" + " " + "LETTER" == "OFFER LETTER"
  {
  }

  lemma UpperOffer()
    ensures ToUpper("offer") == "OFFER"
  {
    var upper := ToUpper("offer");
    assert upper[0] == 'O' && upper[1] == 'F' && upper[2] == 'F' && upper[3] == 'E' && upper[4] == 'R';
  }

  lemma UpperLetter()
    ensures ToUpper("letter") == "LETTER"
  {
    var upper := ToUpper("letter");
    assert upper[0] == 'L' && upper[1] == 'E' && upper[2] == 'T' && upper[3] == 'T' && upper[4] == 'E' && upper[5] == 'R';
  }

  /** `(score * 100).toFixed(1) + "%"` for a score in thousandths. */
  function FormatPercent(thousandths: nat): (s: string)
    ensures |s| >= 4 && s[|s| - 1] == '%' && s[|s| - 3] == '.'
    ensures AllDigits(s[..|s| - 3]) && IsDigit(s[|s| - 2])
    ensures ParseNat(s[..|s| - 3]) * 10 + DigitValue(s[|s| - 2]) == thousandths
  {
    var whole := NatToString(thousandths / 10);
    var s := whole + "." + [DigitChar(thousandths % 10)] + "%";
    assert s[..|s| - 3] == whole;
    s
  }

  lemma FormatPercentExample()
    ensures FormatPercent(873) == "87.3%"
  {
    assert NatToString(8) == "8";
    assert NatToString(87) == NatToString(8) + [DigitChar(7)];
    assert FormatPercent(873) == NatToString(87) + "." + [DigitChar(3)] + "%";
  }

  lemma FormatPercentFullScore()
    ensures FormatPercent(1000) == "100.0%"
  {
    assert NatToString(1) == "1";
    assert NatToString(10) == NatToString(1) + [DigitChar(0)];
    assert NatToString(100) == NatToString(10) + [DigitChar(0)];
    assert FormatPercent(1000) == NatToString(100) + "." + [DigitChar(0)] + "%";
  }

  // ---------------------------------------------------------------- the page

  function WarningRows(warnings: seq<string>): (rows: seq<WarningRow>)
    ensures |rows| == |warnings|
    ensures forall i :: 0 <= i < |warnings| ==> rows[i] == WarningRow(i, warnings[i])
  {
    seq(|warnings|, i requires 0 <= i < |warnings| => WarningRow(i, warnings[i]))
  }

  /** `AnalysisResult()`: `state` is `location.state.result`, `None` when absent. */
  function Render(state: Option<Result>): (p: Page)
    ensures p.NoResults? <==> state.None?
    ensures state.None? ==> p == NoResults(ErrorIcon, "No analysis results found", BackToHome)
    ensures state.Some? ==>
      var r := state.value;
      && p.back == BackToHome
      && (p.headline == "Legitimate Document" <==> r.isLegitimate)
      && (p.headline == "Suspicious Document" <==> !r.isLegitimate)
      && (p.icon == SuccessIcon <==> r.isLegitimate)
      && p.confidence == FormatPercent(r.confidenceScore)
      && p.legitimacy == FormatPercent(r.legitimacyScore)
      && p.progress * 10.0 == r.legitimacyScore as real
      && p.documentType == DocumentTypeLabel(r.documentType)
      && (Truthy(r.companyInfo.name) ==> p.companyName == r.companyInfo.name.s)
      && (!Truthy(r.companyInfo.name) ==> p.companyName == NotDetected)
      && (Truthy(r.companyInfo.domain) ==> p.domain == r.companyInfo.domain.s)
      && (!Truthy(r.companyInfo.domain) ==> p.domain == NotDetected)
      && (p.badge == Badge("Verified", SuccessColor) <==> r.companyInfo.verified)
      && (p.badge == Badge("Unverified", WarningColor) <==> !r.companyInfo.verified)
      && (p.warnings.Some? <==> |r.warnings| > 0)
      && (p.warnings.Some? ==>
            |p.warnings.value| == |r.warnings| &&
            forall i :: 0 <= i < |r.warnings| ==> p.warnings.value[i] == WarningRow(i, r.warnings[i]))
      && p.actions == [Button("Download Report", None), Button("Analyze Another Document", Some("/"))]
  {
    match state
    case None => NoResults(ErrorIcon, "No analysis results found", BackToHome)
    case Some(r) =>
      var legit := r.isLegitimate;
      var info := r.companyInfo;
      Report(
        BackToHome,
        if legit then SuccessIcon else ErrorIcon,
        if legit then "Legitimate Document" else "Suspicious Document",
        FormatPercent(r.confidenceScore),
        DocumentTypeLabel(r.documentType),
        r.legitimacyScore as real / 10.0,
        FormatPercent(r.legitimacyScore),
        OrElse(info.name, NotDetected),
        OrElse(info.domain, NotDetected),
        if info.verified then Badge("Verified", SuccessColor) else Badge("Unverified", WarningColor),
        if |r.warnings| > 0 then Some(WarningRows(r.warnings)) else None,
        [Button("Download Report", None), Button("Analyze Another Document", Some("/"))])
  }
}
