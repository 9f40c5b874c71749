/** The JSON boundary between the backend and the frontend: how a response of
    the analysis endpoints arrives in the page's state, and what the user then
    sees.  Python `None` becomes `null`; scores in tenths become thousandths;
    warnings arrive as their texts. */
module Wire {
  import opened Wrappers
  import DA = DocumentAnalyzer
  import Api
  import P = AnalysisResultPage
  import H = Home

  /** An `Optional[str]` read back by JavaScript: `None` is `null`. */
  function JsonString(o: Option<string>): (v: P.JsString)
    ensures P.Truthy(v) <==> DA.StringTruthy(o)
    ensures o.Some? ==> v == P.Str(o.value)
    ensures o.None? ==> v == P.Null
  {
    match o
    case None => P.Null
    case Some(s) => P.Str(s)
  }

  /** The response body as the page receives it in `response.data`. */
  function ToFrontend(r: Api.AnalysisResponse): (f: P.Result)
    requires 0 <= r.legitimacyScore && 0 <= r.confidenceScore
    ensures f.id == r.id && f.documentType == r.documentType && f.isLegitimate == r.isLegitimate
    ensures f.legitimacyScore == 100 * r.legitimacyScore && f.confidenceScore == 100 * r.confidenceScore
    ensures f.companyInfo == P.CompanyInfo(JsonString(r.companyInfo.name), JsonString(r.companyInfo.domain), r.companyInfo.verified)
    ensures f.warnings == DA.WarningTexts(r.warnings)
  {
    P.Result(
      r.id, r.documentType, 100 * r.legitimacyScore, r.isLegitimate, 100 * r.confidenceScore,
      P.CompanyInfo(JsonString(r.companyInfo.name), JsonString(r.companyInfo.domain), r.companyInfo.verified),
      DA.WarningTexts(r.warnings))
  }

  /** What the awaited `axios.post` settles to for a server response: a
      non-2xx status rejects, with the body's `detail`. */
  function ReplyFor(resp: Api.Response): (reply: H.Reply)
    requires resp.Ok? ==> 0 <= resp.body.legitimacyScore && 0 <= resp.body.confidenceScore
    ensures reply.Success? <==> resp.Ok?
    ensures resp.Ok? ==> reply.data == ToFrontend(resp.body)
    ensures resp.HttpError? ==> reply.detail == P.Str(resp.detail)
  {
    match resp
    case Ok(body) => H.Success(ToFrontend(body))
    case HttpError(_, detail) => H.Failure(P.Str(detail))
  }

  /** A verdict as `analyze_text` returns it for company facts `info`, clock
      `now` and suspicious-pattern results `hits`. */
  predicate IsAnalyzerVerdict(v: DA.Verdict, info: DA.CompanyInfo, now: int, hits: seq<bool>) {
    && |hits| == |DA.SuspiciousPatterns|
    && v.companyInfo == info
    && v.legitimacyScore == DA.Clamp(DA.RawScore(info, now, hits))
    && v.warnings == DA.ExpectedWarnings(info, now, DA.SuspiciousPatterns, hits)
    && (v.isLegitimate <==> v.legitimacyScore > 5)
    && v.confidenceScore == v.legitimacyScore
  }

  /** The page shown for an analysed text or document. */
  function ShownPage(v: DA.Verdict, id: string): (p: P.Page)
    requires 0 <= v.legitimacyScore && 0 <= v.confidenceScore
    ensures p.Report?
  {
    P.Render(Some(ToFrontend(Api.WithId(v, id))))
  }

  /** What the user sees follows the score: the "Legitimate" headline only
      above 50%, only for a verified company, and with the confidence equal to
      the legitimacy; one warning row per warning the scorer appended. */
  lemma {:induction false} ShownVerdictFollowsScore(v: DA.Verdict, id: string, info: DA.CompanyInfo, now: int, hits: seq<bool>)
    requires IsAnalyzerVerdict(v, info, now, hits)
    ensures 0 <= v.legitimacyScore <= 10
    ensures var p := ShownPage(v, id);
      && (p.headline == "Legitimate Document" <==> DA.RawScore(info, now, hits) > 5)
      && (p.headline == "Legitimate Document" ==> p.badge == P.Badge("Verified", P.SuccessColor))
      && p.confidence == p.legitimacy
      && p.legitimacy == P.FormatPercent(100 * DA.Clamp(DA.RawScore(info, now, hits)))
      && (p.warnings.Some? ==> |p.warnings.value| == |v.warnings|)
  {
    DA.LegitimacyThreshold(info, now, hits);
  }

  /** An unverified company is shown as suspicious, with the "Unverified" badge,
      and the domain warning heads the list. */
  lemma {:induction false} UnverifiedCompanyShown(v: DA.Verdict, id: string, info: DA.CompanyInfo, now: int, hits: seq<bool>)
    requires IsAnalyzerVerdict(v, info, now, hits) && !info.verified
    ensures var p := ShownPage(v, id);
      && p.headline == "Suspicious Document"
      && p.badge == P.Badge("Unverified", P.WarningColor)
      && p.warnings.Some?
      && p.warnings.value[0] == P.WarningRow(0, DA.WarningText(DA.DomainUnverified))
  {
    DA.LegitimacyThreshold(info, now, hits);
    assert v.warnings[..1] == [DA.DomainUnverified];
    assert v.warnings[0] == DA.DomainUnverified;
  }

  /** A failed PDF analysis reaches the page with its text intact: the detail
      is never empty, so the path's fallback is never used. */
  lemma PdfFailureShown(e: string, id: string)
    ensures var reply := ReplyFor(Api.RespondTo(DA.AnalyzePdf(DA.Raised(e)), id));
      && reply.Failure?
      && H.ErrorMessage(H.DocumentKind, reply.detail) == DA.PdfErrorPrefix + e
  {
  }

  /** A server error with an empty detail shows the path's fallback message. */
  lemma EmptyDetailFallsBack(kind: H.Kind, id: string)
    ensures var reply := ReplyFor(Api.RespondTo(DA.Raised(""), id));
      H.ErrorMessage(kind, reply.detail) == H.Fallback(kind)
  {
  }

  /** The dropzone lets through a PDF whose name has an upper-case extension,
      and the backend refuses it: the page shows "Invalid file format". */
  lemma UpperCasePdfRefused(stem: string)
    ensures var f := H.File(stem + ".PDF", "application/pdf");
      && H.DropzoneAccepted([f]) == [f]
      && !Api.HasAllowedSuffix(f.name)
      && H.ErrorMessage(H.DocumentKind, ReplyFor(Api.HttpError(400, Api.InvalidFormatDetail)).detail)
         == Api.InvalidFormatDetail
  {
    var f := H.File(stem + ".PDF", "application/pdf");
    assert f.mimeType == H.AcceptedMimeTypes[0];
    assert H.AcceptedByType([f]) == [f] by {
      assert H.AcceptedByType([f][1..]) == [];
    }
    Api.UpperCaseExtensionsRefused(stem);
  }

  /** `analyze_text` followed by the page: the full path from the request's
      inputs to the headline, badge and percentages the user reads. */
  method AnalyzeAndShow(
    typeHits: seq<seq<bool>>, companyName: Option<string>, emailDomain: Option<string>,
    whois: DA.WhoisReply, suspiciousHits: seq<bool>, now: int, id: string)
    returns (p: P.Page)
    requires |typeHits| == |DA.DocTypeNames|
    requires forall t :: 0 <= t < |typeHits| ==> |typeHits[t]| == |DA.DocTypePatterns[t]|
    requires |suspiciousHits| == |DA.SuspiciousPatterns|
    ensures p.Report?
    ensures var info := DA.ExtractCompanyInfo(companyName, emailDomain, whois);
      && (p.headline == "Legitimate Document" <==> DA.RawScore(info, now, suspiciousHits) > 5)
      && (p.headline == "Legitimate Document" ==> p.badge == P.Badge("Verified", P.SuccessColor))
      && (!DA.StringTruthy(emailDomain) ==> p.badge == P.Badge("Unverified", P.WarningColor) && p.headline == "Suspicious Document")
      && p.confidence == p.legitimacy
  {
    var v := DA.AnalyzeText(typeHits, companyName, emailDomain, whois, suspiciousHits, now);
    var info := DA.ExtractCompanyInfo(companyName, emailDomain, whois);
    ShownVerdictFollowsScore(v, id, info, now, suspiciousHits);
    if !DA.StringTruthy(emailDomain) {
      UnverifiedCompanyShown(v, id, info, now, suspiciousHits);
    }
    p := ShownPage(v, id);
  }
}
