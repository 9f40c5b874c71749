# OfferGuard verdict model

OfferGuard checks whether an internship or job offer letter is genuine. The
backend (FastAPI) classifies the letter, gathers facts about the sending
company, and computes a legitimacy score by deduction: it starts at 1.0 and
subtracts for an unverified or young e-mail domain, a missing company name and
each suspicious phrase. It returns the score, a verdict and a list of
warnings. The React frontend submits a document or pasted text and renders the
verdict as a report page.

This project models that core in Dafny and proves its properties:

- `document_analyzer.dfy` (module `DocumentAnalyzer`) covers the scorer, the
  classifier, the normalisation of company facts and the verdict assembly.
  Scores are integer tenths: 10 is 1.0, and the deductions are 5, 1, 3 and 2.
  Every regular-expression search is a boolean input. The whois reply and the
  clock are inputs as well.
- `api.dfy` (module `Api`) covers the endpoints. It has the case-sensitive
  upload suffix check, the response with its fresh `id`, the mapping of
  exceptions to HTTP 500, and the report URL. A `Server` class keeps the
  temporary upload files.
- `analysis_result.dfy` (module `AnalysisResultPage`) covers the report page.
  It is a pure function from the navigation state to the page shown. Scores
  arrive in integer thousandths, so 0.873 is 873.
- `home.dfy` (module `Home`) covers the submission page as a class. Its
  fields are `tabValue`, `text`, `loading` and `error`, plus the requests
  sent, the pending handlers and the last navigation. Each `async` handler
  is split at its `await`: a start method and `Resume`.
- `wire.dfy` (module `Wire`) connects the backend to the frontend. It shows
  how a backend response reaches the page and what the user then sees.
- `strings.dfy` and `wrappers.dfy` hold shared helpers: decimal rendering,
  substring tests, and `Option`.

## Model

| member | source | states |
|---|---|---|
| `DocumentAnalyzer.NormaliseDate` | backend/app/services/document_analyzer.py:106-110 | a list-valued creation date becomes its first element, an empty list becomes `None`, any other value is kept |
| `DocumentAnalyzer.ExtractCompanyInfo` | backend/app/services/document_analyzer.py:89-114 | name and domain are the captures; `verified` holds iff the domain is truthy and whois answered with a truthy `domain_name`; no domain or a whois exception leaves it unverified with no date; a verified company carries the normalised creation date |
| `DocumentAnalyzer.AgeInDays` | backend/app/services/document_analyzer.py:137 | the domain age is the whole number of days elapsed, rounded down like `timedelta.days` |
| `DocumentAnalyzer.CheckedInstant` | backend/app/services/document_analyzer.py:127-136 | only a truthy registration date whose value, after taking a list's first element, is a `datetime` is age-checked |
| `DocumentAnalyzer.DomainCheck` | backend/app/services/document_analyzer.py:121-145 | unverified: exactly 0.5 off with one warning and no age check; verified: at most 0.1 off and at most one warning, 0.1 iff a datetime date under 90 days old, a missing date or a non-datetime date warns without deducting; a datetime date at least 90 days old costs nothing and warns nothing |
| `DocumentAnalyzer.CheckDomain` | backend/app/services/document_analyzer.py:121-145 | the imperative steps 1 and 2 produce exactly the deduction and warnings of `DomainCheck` |
| `DocumentAnalyzer.NameCheck` | backend/app/services/document_analyzer.py:148-151 | a falsy company name costs exactly 0.3 and one warning; a truthy one costs nothing |
| `DocumentAnalyzer.CountTrue` | backend/app/services/document_analyzer.py:154-158 | the number of matching patterns is at most the number of patterns |
| `DocumentAnalyzer.PatternWarnings` | backend/app/services/document_analyzer.py:155-163 | one warning per matching pattern |
| `DocumentAnalyzer.PatternWarningsInOrder` | backend/app/services/document_analyzer.py:155-163 | the warning of matching pattern `i` comes after the warnings of the earlier matches, so the warnings follow the pattern list's order |
| `DocumentAnalyzer.SummaryWarnings` | backend/app/services/document_analyzer.py:165-166 | the summary warning is present iff some pattern matched |
| `DocumentAnalyzer.Clamp` | backend/app/services/document_analyzer.py:169-170 | the final score lies in [0, 1]; an in-range score is kept, a negative one becomes 0 |
| `DocumentAnalyzer.ExpectedWarnings` | backend/app/services/document_analyzer.py:118-166 | the warnings count is (domain/age warnings) + (name warning) + n + [n > 0]; the domain warnings come first; the last warning is the summary for n iff n > 0 |
| `DocumentAnalyzer.WarningTexts` | backend/app/services/document_analyzer.py:124-166 | each warning's text, one per warning, in the same order |
| `DocumentAnalyzer.CriticalTextIffKeyword` | backend/app/services/document_analyzer.py:160-163 | a pattern warning starts with "Critical Warning: " iff the pattern contains "fee", "deposit", "pay" or "payment" |
| `DocumentAnalyzer.ScanPatterns` | backend/app/services/document_analyzer.py:154-163 | the loop over the pattern list counts the matches, takes 0.2 off per match and appends exactly the pattern warnings, in list order |
| `DocumentAnalyzer.CalculateLegitimacyScore` | backend/app/services/document_analyzer.py:116-172 | the loop's score is the clamped sum of the deductions and lies in [0, 1]; its warnings are exactly the expected list in order |
| `DocumentAnalyzer.ScoreTrace` | backend/app/services/document_analyzer.py:118-158 | the running score has one value per update: the start, after the domain steps, after the name step, and after each pattern |
| `DocumentAnalyzer.ScoreNeverIncreases` | backend/app/services/document_analyzer.py:118-166 | the running score starts at 1.0, ends at the unclamped result and never increases from one step to a later one |
| `DocumentAnalyzer.MoreMatchesNeverRaiseScore` | backend/app/services/document_analyzer.py:153-170 | matching a superset of the suspicious patterns never gives a higher score |
| `DocumentAnalyzer.LegitimacyThreshold` | backend/app/services/document_analyzer.py:51 | a score above 0.5 needs a verified domain and at most two matches; the exact number of matches allowed for each combination of name and domain age |
| `DocumentAnalyzer.ClassifyDocumentType` | backend/app/services/document_analyzer.py:68-80 | no match anywhere gives "offer_letter"; otherwise the result is the type with the greatest count, the earliest one on a tie |
| `DocumentAnalyzer.AnalyzeText` | backend/app/services/document_analyzer.py:42-55 | the verdict's type is "offer_letter" when no type pattern matched and otherwise the type with the greatest count, the earliest on a tie; it carries the extracted company facts, the clamped score and its warnings; `is_legitimate` iff score > 0.5; the confidence equals the score |
| `DocumentAnalyzer.AnalyzePdf` | backend/app/services/document_analyzer.py:57-66 | a verdict passes through unchanged; any exception becomes one whose text is "Error processing PDF: " followed by the original text |
| `Strings.NatToString` | backend/app/services/document_analyzer.py:166 | the decimal rendering of a count is digits only, has no leading zero and reads back as the same number |
| `Strings.ContainsAt` | backend/app/services/document_analyzer.py:160 | the `in` substring test holds iff the keyword occurs at some position |
| `Api.AllowedSuffixIffListed` | backend/app/main.py:65 | `HasAllowedSuffix`, the upload's filename test: a filename passes iff one of ".pdf", ".doc", ".docx" ends it |
| `Api.AcceptedNameEnding` | backend/app/main.py:65 | every accepted filename ends in a lower-case 'f', 'c' or 'x' |
| `Api.LowerCaseExtensionsAccepted` | backend/app/main.py:65 | any name with a lower-case allowed extension passes |
| `Api.UpperCaseExtensionsRefused` | backend/app/main.py:65-66 | the check is case-sensitive: ".PDF", ".DOC" and ".DOCX" are refused |
| `Api.WithId` | backend/app/main.py:56-58 | the response is the analyzer's result plus the `id`, and no other field changes |
| `Api.RespondTo` | backend/app/main.py:48-60 | a verdict is returned with the fresh id; any exception becomes HTTP 500 with the exception text as `detail` |
| `Api.Server.AnalyzeDocument` | backend/app/main.py:62-91 | a wrong suffix gives 400 "Invalid file format" before any temporary file is written; otherwise the temporary file is written, the analysis is answered like the text endpoint after `analyze_pdf`'s wrapping, and the file is removed again |
| `Api.GenerateReport` | backend/app/main.py:107-114 | the report URL is "/reports/" + id + ".pdf", from which the id can be read back; the fixed timestamp |
| `Api.ReportUrlInjective` | backend/app/main.py:112 | different analyses get different report URLs |
| `AnalysisResultPage.OrElse` | frontend/src/pages/AnalysisResult.js:152 | a truthy value is shown as it is; `null`, `undefined` and the empty string are replaced by the fallback |
| `AnalysisResultPage.IndexOf` | frontend/src/pages/AnalysisResult.js:114 | the position of the first occurrence: nothing before it matches |
| `AnalysisResultPage.ReplaceFirst` | frontend/src/pages/AnalysisResult.js:114 | `replace` with a string pattern changes only the first occurrence and keeps the length |
| `AnalysisResultPage.ToUpper` | frontend/src/pages/AnalysisResult.js:114 | upper-casing maps every character and keeps the length |
| `AnalysisResultPage.DocumentTypeLabel` | frontend/src/pages/AnalysisResult.js:114 | the label is the type upper-cased with its first underscore, and only that one, turned into a space |
| `AnalysisResultPage.LabelSplitsAtFirstUnderscore` | frontend/src/pages/AnalysisResult.js:114 | a type with no underscore before position k and one at k is shown as its two parts upper-cased and joined by a space; underscores in the second part survive |
| `AnalysisResultPage.DocumentTypeLabelExample` | frontend/src/pages/AnalysisResult.js:114 | "offer_letter" is shown as "OFFER LETTER" |
| `AnalysisResultPage.FormatPercent` | frontend/src/pages/AnalysisResult.js:94 | the percentage text is digits, a point, one digit and "%", and reads back as the score in thousandths |
| `AnalysisResultPage.FormatPercentExample` | frontend/src/pages/AnalysisResult.js:94 | 0.873 is shown as "87.3%" |
| `AnalysisResultPage.FormatPercentFullScore` | frontend/src/pages/AnalysisResult.js:132 | 1.0 is shown as "100.0%" |
| `AnalysisResultPage.WarningRows` | frontend/src/pages/AnalysisResult.js:182-189 | one row per warning, in input order, keyed by its index, without deduplication |
| `AnalysisResultPage.Render` | frontend/src/pages/AnalysisResult.js:31-211 | no result gives the "No analysis results found" placeholder with a back-to-home action; otherwise the headline and icon follow `is_legitimate`, the confidence and legitimacy texts are the scores as percentages, the progress value is score×100, name and domain fall back to "Not detected" when falsy, the badge follows `verified`, and the warnings section is present iff the list is non-empty |
| `Home.AcceptedByType` | frontend/src/pages/Home.js:57-61 | a dropped file is kept iff its MIME type is PDF, DOC or DOCX |
| `Home.DropzoneAccepted` | frontend/src/pages/Home.js:55-63 | `onDrop` receives at most one file, always of an accepted type |
| `Home.TrimStart` | frontend/src/pages/Home.js:66 | removes exactly the leading whitespace |
| `Home.TrimEnd` | frontend/src/pages/Home.js:66 | removes exactly the trailing whitespace |
| `Home.BlankIffAllWhitespace` | frontend/src/pages/Home.js:66 | `!text.trim()` holds iff every character is whitespace |
| `Home.ErrorMessage` | frontend/src/pages/Home.js:49 | the error shown is the server's `detail` when truthy, otherwise the path's fallback, and it is never empty |
| `Home.FallbacksDistinguishPaths` | frontend/src/pages/Home.js:75 | without a detail, the document and text paths show different messages |
| `Home.HomePage.constructor` | frontend/src/pages/Home.js:31-34 | the first tab, empty text, not loading, no error |
| `Home.HomePage.ErrorAlert` | frontend/src/pages/Home.js:101-105 | the alert is shown iff `error` is non-empty, with that text |
| `Home.HomePage.SelectTab` | frontend/src/pages/Home.js:91-93 | switching tabs changes only `tabValue`; the typed text is kept |
| `Home.HomePage.EditText` | frontend/src/pages/Home.js:142 | typing changes only `text` |
| `Home.HomePage.OnDrop` | frontend/src/pages/Home.js:36-46 | only reachable on the document tab (tab 0), where the dropzone is rendered; an empty list changes nothing; otherwise only the first file is posted, `loading` is set and `error` cleared, with no check of `loading` |
| `Home.HomePage.HandleTextAnalysis` | frontend/src/pages/Home.js:65-71 | blank text changes nothing and posts nothing; otherwise the untrimmed text is posted, `loading` is set and `error` cleared |
| `Home.HomePage.ClickAnalyze` | frontend/src/pages/Home.js:135-153 | only reachable on the text tab (tab 1), where the button is rendered; the click starts an analysis iff the button is enabled (`!loading` and non-blank text), and then sets `loading`, clears `error`, posts the untrimmed text, keeps the tab, the text and the navigation, and keeps at most one request in flight |
| `Home.HomePage.AnalyzeEnabledIffNonBlank` | frontend/src/pages/Home.js:150 | the Analyze button is enabled iff nothing is loading and the text has a character that is not whitespace |
| `Home.HomePage.Resume` | frontend/src/pages/Home.js:46-52 | after any outcome `loading` is false; success navigates to "/analysis/" + id carrying the result unchanged; failure sets the detail or the path's fallback |
| `Home.DoubleDrop` | frontend/src/pages/Home.js:36-53 | two drops put two uploads in flight, and the first reply clears `loading` while the second is pending |
| `Home.SwitchTabsKeepsText` | frontend/src/pages/Home.js:93 | typed text survives switching tabs, and the button's state follows it |
| `Wire.JsonString` | backend/app/services/document_analyzer.py:89-97 | a Python `None` arrives as `null` and is falsy exactly when the Python value was |
| `Wire.ToFrontend` | backend/app/main.py:32-39 | the page receives the response's fields, with the scores ×100 in thousandths and each warning as its text |
| `Wire.ReplyFor` | frontend/src/pages/Home.js:46-49 | a 2xx response reaches the page as its data; an HTTP error reaches it as a rejection carrying the `detail` |
| `Wire.ShownVerdictFollowsScore` | frontend/src/pages/AnalysisResult.js:80-94 | the page says "Legitimate Document" iff the score is above 0.5, only with the "Verified" badge; confidence and legitimacy texts agree; one row per warning |
| `Wire.UnverifiedCompanyShown` | frontend/src/pages/AnalysisResult.js:165-189 | an unverified company is shown as suspicious with the "Unverified" badge, and the domain warning is the first row |
| `Wire.PdfFailureShown` | backend/app/main.py:85-86 | a failed PDF analysis shows "Error processing PDF: " and the exception text, never the fallback |
| `Wire.EmptyDetailFallsBack` | frontend/src/pages/Home.js:49 | a server error with an empty detail shows the path's fallback |
| `Wire.UpperCasePdfRefused` | backend/app/main.py:65-66 | a PDF named "x.PDF" passes the dropzone but the backend refuses it, and the page shows "Invalid file format" |
| `Wire.AnalyzeAndShow` | backend/app/services/document_analyzer.py:42-55 | from the analysis inputs to the page: the headline is "Legitimate" iff the score exceeds 0.5 and never without the "Verified" badge; no e-mail domain always gives "Suspicious" and "Unverified" |

## Left out

- Regular-expression matching (`re.search` for classification, company name,
  e-mail domain and suspicious phrases) is not modelled. Each match is a
  boolean or optional-string input. `.strip()` of the name capture is part of
  that input too.
- `whois.whois`, `datetime.now()` and PyMuPDF text extraction are network,
  clock and library calls. The whois reply, the current time in seconds and
  the outcome of `analyze_pdf`'s body are inputs. Time-zone-aware dates are
  not modelled, and neither is the `TypeError` their subtraction can raise.
- Floating point is not modelled. Scores are exact integer tenths in the
  backend and thousandths in the frontend. The real code subtracts floats, so
  a score meant to be exactly 0.5 may end up just above or below it, and the
  verdict may differ. `toFixed` rounding is likewise not modelled.
- `AnalysisResultPage.ToUpper` upper-cases ASCII letters only. JavaScript's
  full Unicode case mapping is not modelled.
- `Home.AcceptedByType` filters a drop by MIME type only. react-dropzone's
  matching by file extension and its other internals are not modelled.
  `Home.DropzoneAccepted` then applies `maxFiles` by refusing every file when
  more than one is accepted.
- React rendering, MUI styling, react-router navigation, axios transport and
  the `console` calls are outside the model. A navigation is recorded as a
  path and the result it carries. An HTTP outcome is a success with data or a
  failure with an optional `detail`. A `detail` that is not a string is not
  modelled, such as FastAPI's 422 validation list.
- Concurrency is not modelled. Pending handlers are a list, and `Resume` may
  settle any of them, in any order. A `setState` after navigating away is
  modelled as taking effect.
- The FastAPI, CORS and uvicorn setup, the `GET /` greeting and the
  `verify_company` endpoint are not modelled. The frontend's `Navbar.js` and
  the empty report-download handler are not modelled either. The download
  button appears on the page with no target.
- Temporary files are modelled only as a set of paths plus a log of writes.
  `os.path.exists` is membership in that set. The file's content and write
  failures are not modelled.
- `DocumentAnalyzer.CheckDomain` and `DocumentAnalyzer.ScanPatterns` are
  helper methods for steps 1-2 and step 4 of the scorer, which the source
  writes inline in one function. Warnings are kept as a datatype and
  rendered by `WarningText` with the source's exact texts.
- `DocumentAnalyzer.CriticalTextIffKeyword` is proved for any pattern. Which
  of the nine listed patterns are critical is not spelled out pattern by
  pattern.
- `Wire.ToFrontend` requires non-negative scores, which `DocumentAnalyzer.AnalyzeText`
  guarantees. The frontend takes scores as natural numbers.
