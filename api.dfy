/** The HTTP endpoints: the upload's filename check, the response assembled from
    an analysis, the mapping of exceptions to HTTP errors, and the report URL.
    The uuid and the analysis outcome are inputs; the temporary upload files are
    the state a `Server` object keeps. */
module Api {
  import opened Strings
  import opened DocumentAnalyzer

  const AllowedSuffixes: seq<string> := [".pdf", ".doc", ".docx"]
  const InvalidFormatDetail: string := "Invalid file format"

  /** `filename.endswith(('.pdf', '.doc', '.docx'))`: case-sensitive. */
  predicate HasAllowedSuffix(filename: string) {
    EndsWith(filename, ".pdf") || EndsWith(filename, ".doc") || EndsWith(filename, ".docx")
  }

  /** The suffix test accepts a name iff one of the listed suffixes ends it. */
  lemma AllowedSuffixIffListed(filename: string)
    ensures HasAllowedSuffix(filename) <==> exists k :: 0 <= k < |AllowedSuffixes| && EndsWith(filename, AllowedSuffixes[k])
  {
    if HasAllowedSuffix(filename) {
      if EndsWith(filename, ".pdf") {
        assert EndsWith(filename, AllowedSuffixes[0]);
      } else if EndsWith(filename, ".doc") {
        assert EndsWith(filename, AllowedSuffixes[1]);
      } else {
        assert EndsWith(filename, AllowedSuffixes[2]);
      }
    }
  }

  /** An accepted name ends in one of the lower-case letters 'f', 'c' or 'x'. */
  lemma AcceptedNameEnding(filename: string)
    requires HasAllowedSuffix(filename)
    ensures |filename| > 0
    ensures var last := filename[|filename| - 1]; last == 'f' || last == 'c' || last == 'x'
  {
    var n := |filename|;
    if EndsWith(filename, ".pdf") {
      assert filename[n - 1] == filename[n - 4..][3];
    } else if EndsWith(filename, ".doc") {
      assert filename[n - 1] == filename[n - 4..][3];
    } else {
      assert filename[n - 1] == filename[n - 5..][4];
    }
  }

  /** Any stem with a lower-case allowed extension is accepted. */
  lemma LowerCaseExtensionsAccepted(stem: string)
    ensures HasAllowedSuffix(stem + ".pdf") && HasAllowedSuffix(stem + ".doc") && HasAllowedSuffix(stem + ".docx")
  {
    var pdf, doc, docx := stem + ".pdf", stem + ".doc", stem + ".docx";
    assert pdf[|pdf| - 4..] == ".pdf";
    assert doc[|doc| - 4..] == ".doc";
    assert docx[|docx| - 5..] == ".docx";
  }

  /** The check is case-sensitive: upper-case extensions are refused. */
  lemma UpperCaseExtensionsRefused(stem: string)
    ensures !HasAllowedSuffix(stem + ".PDF") && !HasAllowedSuffix(stem + ".DOC") && !HasAllowedSuffix(stem + ".DOCX")
  {
    forall ext | ext in [".PDF", ".DOC", ".DOCX"]
      ensures !HasAllowedSuffix(stem + ext)
    {
      var f := stem + ext;
      assert f[|f| - 1] == ext[|ext| - 1];
      if HasAllowedSuffix(f) {
        AcceptedNameEnding(f);
      }
    }
  }

  /** `DocumentAnalysisResponse`: the analyzer's dictionary plus the `id` key. */
  datatype AnalysisResponse = AnalysisResponse(
    id: string,
    documentType: string,
    legitimacyScore: int,
    isLegitimate: bool,
    confidenceScore: int,
    companyInfo: CompanyInfo,
    warnings: seq<Warning>)

  /** The analyzer's part of a response, without its `id`. */
  function WithoutId(r: AnalysisResponse): Verdict {
    Verdict(r.documentType, r.legitimacyScore, r.isLegitimate, r.confidenceScore, r.companyInfo, r.warnings)
  }

  /** `result["id"] = analysis_id`: the id is added and nothing else changes. */
  function WithId(v: Verdict, id: string): (r: AnalysisResponse)
    ensures r.id == id && WithoutId(r) == v
  {
    AnalysisResponse(id, v.documentType, v.legitimacyScore, v.isLegitimate, v.confidenceScore, v.companyInfo, v.warnings)
  }

  datatype Response = Ok(body: AnalysisResponse) | HttpError(status: nat, detail: string)

  /** `POST /api/analyze/text` with `run` the outcome of `analyze_text`, and the
      `try`/`except` both analysis endpoints share: a verdict is returned with the
      fresh id, any exception becomes a 500 carrying `str(e)`. */
  function RespondTo(run: Analysis, id: string): (r: Response)
    ensures r.Ok? <==> run.Analyzed?
    ensures r.Ok? ==> r.body.id == id && WithoutId(r.body) == run.verdict
    ensures r.HttpError? ==> r.status == 500 && r.detail == run.message
  {
    match run
    case Analyzed(v) => Ok(WithId(v, id))
    case Raised(e) => HttpError(500, e)
  }

  /** Name of the temporary copy of an upload. */
  function TempPath(id: string, filename: string): string {
    "temp_" + id + "_" + filename
  }

  /** The report endpoint's answer. */
  datatype Report = Report(reportUrl: string, generatedAt: string)

  const ReportsPrefix: string := "/reports/"
  const ReportTimestamp: string := "2024-01-20T12:00:00Z"

  /** `POST /api/generate-report/{analysis_id}`: the id can be read back from the URL. */
  function GenerateReport(analysisId: string): (r: Report)
    ensures StartsWith(r.reportUrl, ReportsPrefix) && EndsWith(r.reportUrl, ".pdf")
    ensures |r.reportUrl| == |ReportsPrefix| + |analysisId| + 4
    ensures r.reportUrl[|ReportsPrefix|..|r.reportUrl| - 4] == analysisId
    ensures r.generatedAt == ReportTimestamp
  {
    Report(ReportsPrefix + analysisId + ".pdf", ReportTimestamp)
  }

  /** Different analyses get different report URLs. */
  lemma ReportUrlInjective(a: string, b: string)
    requires GenerateReport(a).reportUrl == GenerateReport(b).reportUrl
    ensures a == b
  {
    var u := GenerateReport(a).reportUrl;
    assert a == u[|ReportsPrefix|..|u| - 4];
  }

  /** The backend process: the temporary files present on disk, and every
      temporary path the upload handler has written, in order. */
  class Server {
    var tempFiles: set<string>
    var written: seq<string>

    constructor ()
      ensures tempFiles == {} && written == []
    {
      tempFiles := {};
      written := [];
    }

    /** `POST /api/analyze/document`; `id` is the fresh uuid and `run` the outcome
        of analysing the saved file before `analyze_pdf` wraps its exceptions. */
    method AnalyzeDocument(filename: string, id: string, run: Analysis) returns (r: Response)
      modifies this
      ensures !HasAllowedSuffix(filename) ==>
                r == HttpError(400, InvalidFormatDetail) && written == old(written) && tempFiles == old(tempFiles)
      ensures HasAllowedSuffix(filename) ==>
                && r == RespondTo(AnalyzePdf(run), id)
                && written == old(written) + [TempPath(id, filename)]
                && tempFiles == old(tempFiles) - {TempPath(id, filename)}
    {
      if !HasAllowedSuffix(filename) {
        r := HttpError(400, InvalidFormatDetail);
        return;
      }
      var filePath := TempPath(id, filename);
      tempFiles := tempFiles + {filePath};
      written := written + [filePath];
      var result := AnalyzePdf(run);
      match result {
        case Analyzed(v) =>
          r := Ok(WithId(v, id));
        case Raised(e) =>
          r := HttpError(500, e);
      }
      if filePath in tempFiles {
        tempFiles := tempFiles - {filePath};
      }
    }
  }
}
