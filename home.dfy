/** The submission page: a state machine over the tab, the typed text, the
    loading flag and the error message.  Each `async` handler is split at its
    `await`: the first half posts a request and leaves the handler pending, and
    `Resume` runs the second half of one pending handler with the server's
    reply.  The HTTP outcome and navigation are the boundary of the model. */
module Home {
  import opened Wrappers
  import opened AnalysisResultPage

  const ApiBaseUrl: string := "http://localhost:8000/api"
  const DocumentEndpoint: string := ApiBaseUrl + "/analyze/document"
  const TextEndpoint: string := ApiBaseUrl + "/analyze/text"
  const AnalysisRoute: string := "/analysis/"

  // ---------------------------------------------------------------- the dropzone

  datatype File = File(name: string, mimeType: string)

  const AcceptedMimeTypes: seq<string> := [
    "application/pdf",
    "application/msword",
    "application/vnd.openxmlformats-officedocument.wordprocessingml.document"
  ]
  const MaxFiles: nat := 1

  /** The files of a drop whose MIME type the dropzone's `accept` lists, in order. */
  function AcceptedByType(dropped: seq<File>): (accepted: seq<File>)
    ensures |accepted| <= |dropped|
    ensures forall f :: f in accepted <==> f in dropped && f.mimeType in AcceptedMimeTypes
  {
    if dropped == [] then []
    else
      var rest := AcceptedByType(dropped[1..]);
      assert forall f :: f in dropped <==> f == dropped[0] || f in dropped[1..];
      if dropped[0].mimeType in AcceptedMimeTypes then [dropped[0]] + rest else rest
  }

  /** `acceptedFiles` as the dropzone hands it to `onDrop`: the files of an
      accepted type, all of them refused when there are more than `maxFiles`. */
  function DropzoneAccepted(dropped: seq<File>): (accepted: seq<File>)
    ensures |accepted| <= MaxFiles
    ensures forall f :: f in accepted ==> f in dropped && f.mimeType in AcceptedMimeTypes
    ensures |AcceptedByType(dropped)| == 1 ==> accepted == AcceptedByType(dropped)
  {
    var typed := AcceptedByType(dropped);
    if |typed| > MaxFiles then [] else typed
  }

  // ---------------------------------------------------------------- JavaScript trim

  /** ECMAScript WhiteSpace and LineTerminator code points, which `trim` removes. */
  predicate IsJsWhitespace(c: char) {
    || c == '\t' || c == '\n' || c == '\U{000B}' || c == '\U{000C}' || c == '\r' || c == ' '
    || c == '\U{00A0}' || c == '\U{1680}' || ('\U{2000}' <= c <= '\U{200A}')
    || c == '\U{2028}' || c == '\U{2029}' || c == '\U{202F}' || c == '\U{205F}'
    || c == '\U{3000}' || c == '\U{FEFF}'
  }

  /** Drops leading whitespace: the result is a suffix of `s` and starts with
      a non-whitespace character, and everything dropped is whitespace. */
  function TrimStart(s: string): (r: string)
    ensures |r| <= |s| && r == s[|s| - |r|..]
    ensures r != [] ==> !IsJsWhitespace(r[0])
    ensures forall i :: 0 <= i < |s| - |r| ==> IsJsWhitespace(s[i])
  {
    if s == [] then []
    else if IsJsWhitespace(s[0]) then TrimStart(s[1..])
    else s
  }

  /** Drops trailing whitespace, symmetrically. */
  function TrimEnd(s: string): (r: string)
    ensures |r| <= |s| && r == s[..|r|]
    ensures r != [] ==> !IsJsWhitespace(r[|r| - 1])
    ensures forall i :: |r| <= i < |s| ==> IsJsWhitespace(s[i])
  {
    if s == [] then []
    else if IsJsWhitespace(s[|s| - 1]) then TrimEnd(s[..|s| - 1])
    else s
  }

  /** `String.prototype.trim`. */
  function Trim(s: string): string {
    TrimEnd(TrimStart(s))
  }

  /** `!text.trim()`: the trimmed text is the empty, falsy string. */
  predicate IsBlank(s: string) {
    Trim(s) == ""
  }

  /** A text is blank iff every one of its characters is whitespace. */
  lemma {:induction false} BlankIffAllWhitespace(s: string)
    ensures IsBlank(s) <==> forall i :: 0 <= i < |s| ==> IsJsWhitespace(s[i])
  {
    var t := TrimStart(s);
    var offset := |s| - |t|;
    if !IsBlank(s) {
      var r := Trim(s);
      assert r[0] == t[0] == s[offset];
    }
  }

  // ---------------------------------------------------------------- requests and replies

  datatype Kind = DocumentKind | TextKind

  datatype Body = FormData(file: File) | Json(text: string)
  datatype Request = Request(url: string, body: Body)

  /** What the awaited `axios.post` settles to: the response data, or a
      rejection whose `err.response?.data?.detail` is `detail`. */
  datatype Reply = Success(data: Result) | Failure(detail: JsString)

  /** A `navigate(path, { state: { result } })` call. */
  datatype Navigation = Navigation(path: string, result: Result)

  function Fallback(kind: Kind): string {
    match kind
    case DocumentKind => "Error analyzing document"
    case TextKind => "Error analyzing text"
  }

  /** `err.response?.data?.detail || <fallback of the path>`. */
  function ErrorMessage(kind: Kind, detail: JsString): (message: string)
    ensures Truthy(detail) ==> message == detail.s
    ensures !Truthy(detail) ==> message == Fallback(kind)
    ensures message != ""
  {
    OrElse(detail, Fallback(kind))
  }

  /** The failure message tells the two paths apart when the server gave no detail. */
  lemma FallbacksDistinguishPaths(detail: JsString)
    requires !Truthy(detail)
    ensures ErrorMessage(DocumentKind, detail) != ErrorMessage(TextKind, detail)
  {
    assert ErrorMessage(DocumentKind, detail)[16] == 'd';
    assert ErrorMessage(TextKind, detail)[16] == 't';
  }

  // ---------------------------------------------------------------- the component

  class HomePage {
    var tabValue: int
    var text: string
    var loading: bool
    var error: string
    /** Every request posted, in order. */
    var sent: seq<Request>
    /** The handlers suspended at their `await`, in the order they started. */
    var awaiting: seq<Kind>
    /** The last navigation performed, if any. */
    var navigation: Option<Navigation>

    constructor ()
      ensures tabValue == 0 && text == "" && !loading && error == ""
      ensures sent == [] && awaiting == [] && navigation == None
    {
      tabValue := 0;
      text := "";
      loading := false;
      error := "";
      sent := [];
      awaiting := [];
      navigation := None;
    }

    /** At most one request is outstanding, and `loading` says whether one is. */
    predicate SingleFlight()
      reads this
    {
      |awaiting| <= 1 && (loading <==> |awaiting| == 1)
    }

    /** `disabled={loading || !text.trim()}`, negated. */
    predicate AnalyzeEnabled()
      reads this
    {
      !loading && !IsBlank(text)
    }

    /** The button is enabled iff nothing is loading and the text has a
        character that is not whitespace. */
    lemma AnalyzeEnabledIffNonBlank()
      ensures AnalyzeEnabled() <==> !loading && exists i :: 0 <= i < |text| && !IsJsWhitespace(text[i])
    {
      BlankIffAllWhitespace(text);
    }

    /** The error alert and its message, shown iff `error` is non-empty. */
    function ErrorAlert(): (alert: Option<string>)
      reads this
      ensures alert.Some? <==> error != ""
      ensures alert.Some? ==> alert.value == error
    {
      if error != "" then Some(error) else None
    }

    /** The tabs' `onChange`: only the selected tab changes. */
    method SelectTab(newValue: int)
      modifies this
      ensures tabValue == newValue
      ensures text == old(text) && loading == old(loading) && error == old(error)
      ensures sent == old(sent) && awaiting == old(awaiting) && navigation == old(navigation)
    {
      tabValue := newValue;
    }

    /** The text field's `onChange`. */
    method EditText(value: string)
      modifies this
      ensures text == value
      ensures tabValue == old(tabValue) && loading == old(loading) && error == old(error)
      ensures sent == old(sent) && awaiting == old(awaiting) && navigation == old(navigation)
    {
      text := value;
    }

    /** `onDrop` up to its `await`: only the first accepted file is sent, an
        empty list does nothing, and nothing checks `loading`. */
    method OnDrop(acceptedFiles: seq<File>) returns (started: bool)
      requires tabValue == 0
      modifies this
      ensures started <==> |acceptedFiles| > 0
      ensures !started ==> unchanged(this)
      ensures started ==>
        && loading && error == ""
        && sent == old(sent) + [Request(DocumentEndpoint, FormData(acceptedFiles[0]))]
        && awaiting == old(awaiting) + [DocumentKind]
        && tabValue == old(tabValue) && text == old(text) && navigation == old(navigation)
    {
      if |acceptedFiles| == 0 {
        return false;
      }
      var file := acceptedFiles[0];
      loading := true;
      error := "";
      sent := sent + [Request(DocumentEndpoint, FormData(file))];
      awaiting := awaiting + [DocumentKind];
      started := true;
    }

    /** `handleTextAnalysis` up to its `await`: a blank text does nothing;
        otherwise the text is posted as typed, untrimmed. */
    method HandleTextAnalysis() returns (started: bool)
      modifies this
      ensures started <==> !IsBlank(old(text))
      ensures !started ==> unchanged(this)
      ensures started ==>
        && loading && error == ""
        && sent == old(sent) + [Request(TextEndpoint, Json(old(text)))]
        && awaiting == old(awaiting) + [TextKind]
        && tabValue == old(tabValue) && text == old(text) && navigation == old(navigation)
    {
      if IsBlank(text) {
        return false;
      }
      loading := true;
      error := "";
      sent := sent + [Request(TextEndpoint, Json(text))];
      awaiting := awaiting + [TextKind];
      started := true;
    }

    /** A click on the Analyze button, which only reaches the handler when the
        button is enabled.  Started from a single-flight state, it keeps it. */
    method ClickAnalyze() returns (started: bool)
      requires tabValue == 1
      modifies this
      ensures started <==> old(AnalyzeEnabled())
      ensures !started ==> unchanged(this)
      ensures started ==>
        && loading && error == ""
        && sent == old(sent) + [Request(TextEndpoint, Json(old(text)))]
        && awaiting == old(awaiting) + [TextKind]
        && tabValue == old(tabValue) && text == old(text) && navigation == old(navigation)
      ensures old(SingleFlight()) ==> SingleFlight()
    {
      if !AnalyzeEnabled() {
        return false;
      }
      started := HandleTextAnalysis();
    }

    /** The rest of the `i`-th pending handler once its request settles: on
        success navigate to the analysis with the result unchanged, on failure
        show the detail or the path's fallback; `loading` is cleared either way. */
    method Resume(i: nat, reply: Reply)
      requires i < |awaiting|
      modifies this
      ensures awaiting == old(awaiting[..i] + awaiting[i + 1..])
      ensures !loading
      ensures reply.Success? ==>
        navigation == Some(Navigation(AnalysisRoute + reply.data.id, reply.data)) && error == old(error)
      ensures reply.Failure? ==>
        error == ErrorMessage(old(awaiting[i]), reply.detail) && navigation == old(navigation)
      ensures tabValue == old(tabValue) && text == old(text) && sent == old(sent)
      ensures old(SingleFlight()) ==> SingleFlight()
    {
      var kind := awaiting[i];
      awaiting := awaiting[..i] + awaiting[i + 1..];
      match reply {
        case Success(data) =>
          navigation := Some(Navigation(AnalysisRoute + data.id, data));
        case Failure(detail) =>
          error := ErrorMessage(kind, detail);
      }
      loading := false;
    }
  }

  /** Without a guard on `loading`, two drops put two uploads in flight, and the
      first reply clears `loading` while the second is still pending. */
  method DoubleDrop(file: File, reply: Reply) returns (page: HomePage)
    ensures |page.sent| == 2 && page.sent[0] == page.sent[1]
    ensures page.awaiting == [DocumentKind]
    ensures !page.loading && !page.SingleFlight()
  {
    page := new HomePage();
    var first := page.OnDrop([file]);
    var second := page.OnDrop([file]);
    page.Resume(0, reply);
  }

  /** Typed text survives a round trip through the other tab. */
  method SwitchTabsKeepsText(typed: string) returns (page: HomePage)
    ensures page.text == typed && page.tabValue == 1
    ensures page.AnalyzeEnabled() <==> !IsBlank(typed)
  {
    page := new HomePage();
    page.SelectTab(1);
    page.EditText(typed);
    page.SelectTab(0);
    page.SelectTab(1);
  }
}
