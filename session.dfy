/** The component's state and its handlers (src/App.tsx:43-103), and which
    screen a state shows (src/App.tsx:335-553). Each handler is specified by
    a function from the old state to the new one; the `App` class runs the
    handlers on its four state fields. */
module Session {
  import opened Js
  import opened Display

  /** The body of a response with an ok status, as `response.json()` and
      `data[0]` see it. An element or property that is a response object is
      `Some`; one that is missing or falsy (`null`, `false`, `0`, `""`) is
      `None`, since the component only tests the result for truthiness. */
  datatype Body =
    | NotJson                                           // `response.json()` rejects
    | JsonNull                                          // `data[0]` throws on null
    | JsonArray(elements: seq<Option<WebhookResponse>>) // `data[0]` is the first element, if any
    | JsonNonArray(zero: Option<WebhookResponse>)       // an object, number or boolean: `data[0]` is its property "0"

  /** What the upload request (src/App.tsx:80-83) came back with. */
  datatype FetchOutcome = NetworkFailure | HttpResponse(status: int, body: Body)

  /** Why an analysis failed; the screen shows the same message for each. */
  datatype AnalysisError = NetworkError | HttpError(status: int) | MalformedBody

  datatype Result<T> = Success(value: T) | Failure(error: AnalysisError)

  /** `response.ok`: a status in the 200 range. */
  predicate StatusOk(status: int) {
    200 <= status <= 299
  }

  /** The `try` block of `analyzeImage` (src/App.tsx:76-90): `data[0]`, which
      is missing when the array is empty or the first element is falsy, and
      for a body that is not an array is its property "0"; or the reason the
      block threw. A bad status is reported before the body is read. */
  function ParseResponse(o: FetchOutcome): (r: Result<Option<WebhookResponse>>)
    ensures o.NetworkFailure? ==> r == Failure(NetworkError)
    ensures o.HttpResponse? && !StatusOk(o.status) ==> r == Failure(HttpError(o.status))
    ensures r.Success? <==> o.HttpResponse? && StatusOk(o.status) && (o.body.JsonArray? || o.body.JsonNonArray?)
    ensures r.Success? && o.body.JsonArray? ==> r.value == (if |o.body.elements| > 0 then o.body.elements[0] else None)
    ensures r.Success? && o.body.JsonNonArray? ==> r.value == o.body.zero
  {
    match o
    case NetworkFailure => Failure(NetworkError)
    case HttpResponse(status, body) =>
      if !StatusOk(status) then Failure(HttpError(status))
      else
        match body
        case NotJson => Failure(MalformedBody)
        case JsonNull => Failure(MalformedBody)
        case JsonArray(elements) => Success(if |elements| > 0 then elements[0] else None)
        case JsonNonArray(zero) => Success(zero)
  }

  /** The message shown for any failed analysis (src/App.tsx:93). */
  const FailureMessage := "Analiz sırasında bir hata oluştu. Lütfen tekrar deneyin."

  /** The component's four state variables (src/App.tsx:44-47). */
  datatype AppState = AppState(
    selectedImage: Option<string>,
    isAnalyzing: bool,
    analysisResult: Option<WebhookResponse>,
    error: Option<string>)

  /** The state of a freshly mounted component. */
  const Initial := AppState(None, false, None, None)

  /** What the file input delivered: nothing, or a file the reader turned
      into a data URL. */
  datatype FilePick = NoFile | Picked(dataUrl: string)

  /** The left half of the results screen (src/App.tsx:366-378). */
  datatype ImagePane = Spinner | Photo(dataUrl: string)

  /** The main area (src/App.tsx:336-553): the welcome screen, or the results
      screen with its image pane, its error banner and its report. */
  datatype Screen =
    | Landing
    | Results(pane: ImagePane, errorBanner: Option<string>, report: Option<ReportView>)

  /** The screen a state shows. */
  function Render(st: AppState, d: Dictionaries): (r: Screen)
    ensures r.Landing? <==> !Truthy(st.selectedImage)
    ensures r.Results? ==> (r.pane == Spinner <==> st.isAnalyzing)
    ensures r.Results? && !st.isAnalyzing ==> r.pane == Photo(st.selectedImage.value)
    ensures r.Results? ==> (r.errorBanner.Some? <==> Truthy(st.error))
    ensures r.Results? && r.errorBanner.Some? ==> r.errorBanner.value == st.error.value
    ensures r.Results? ==> (r.report.Some? <==> st.analysisResult.Some? && !st.isAnalyzing)
    ensures r.Results? && r.report.Some? ==> r.report.value == ViewReport(st.analysisResult.value.output, d)
  {
    if !Truthy(st.selectedImage) then Landing
    else
      Results(
        if st.isAnalyzing then Spinner else Photo(st.selectedImage.value),
        if Truthy(st.error) then st.error else None,
        if st.analysisResult.Some? && !st.isAnalyzing then Some(ViewReport(st.analysisResult.value.output, d)) else None)
  }

  /** The synchronous start of `analyzeImage` (src/App.tsx:73-74). */
  function Started(st: AppState): (r: AppState)
    ensures r.isAnalyzing && r.error == None
    ensures r.selectedImage == st.selectedImage && r.analysisResult == st.analysisResult
  {
    st.(isAnalyzing := true, error := None)
  }

  /** The end of `analyzeImage` once the request settled (src/App.tsx:76-96):
      `data[0]` on success, the fixed message on failure
      with the previous result kept, and analysing off in every case. */
  function Finished(st: AppState, o: FetchOutcome): (r: AppState)
    ensures !r.isAnalyzing && r.selectedImage == st.selectedImage
    ensures ParseResponse(o).Success? ==> r.analysisResult == ParseResponse(o).value && r.error == st.error
    ensures ParseResponse(o).Failure? ==> r.analysisResult == st.analysisResult && r.error == Some(FailureMessage)
  {
    match ParseResponse(o)
    case Success(data) => st.(analysisResult := data, isAnalyzing := false)
    case Failure(_) => st.(error := Some(FailureMessage), isAnalyzing := false)
  }

  /** A whole run of `analyzeImage` (src/App.tsx:72-97). */
  function Analyzed(st: AppState, o: FetchOutcome): (r: AppState)
    ensures !r.isAnalyzing && r.selectedImage == st.selectedImage
    ensures r.error.Some? <==> ParseResponse(o).Failure?
    ensures r.error.Some? ==> r.error.value == FailureMessage
    ensures ParseResponse(o).Success? ==> r.analysisResult == ParseResponse(o).value
    ensures ParseResponse(o).Failure? ==> r.analysisResult == st.analysisResult
  {
    Finished(Started(st), o)
  }

  /** `handleFileChange` (src/App.tsx:58-70): a chosen file whose data URL is
      non-empty becomes the selected image and is analysed; otherwise nothing
      changes. */
  function FileChanged(st: AppState, pick: FilePick, o: FetchOutcome): (r: AppState)
    ensures !(pick.Picked? && pick.dataUrl != "") ==> r == st
    ensures pick.Picked? && pick.dataUrl != "" ==> r.selectedImage == Some(pick.dataUrl) && !r.isAnalyzing
    ensures pick.Picked? && pick.dataUrl != "" ==>
      (r.error.Some? <==> ParseResponse(o).Failure?) && (r.error.Some? ==> r.error.value == FailureMessage)
    ensures pick.Picked? && pick.dataUrl != "" && ParseResponse(o).Success? ==> r.analysisResult == ParseResponse(o).value
    ensures pick.Picked? && pick.dataUrl != "" && ParseResponse(o).Failure? ==> r.analysisResult == st.analysisResult
  {
    if pick.Picked? && pick.dataUrl != "" then Analyzed(st.(selectedImage := Some(pick.dataUrl)), o) else st
  }

  /** `resetAnalysis` (src/App.tsx:99-103): image, result and error cleared;
      the analysing flag is not touched. */
  function Reset(st: AppState): (r: AppState)
    ensures r.selectedImage == None && r.analysisResult == None && r.error == None
    ensures r.isAnalyzing == st.isAnalyzing
  {
    st.(selectedImage := None, analysisResult := None, error := None)
  }

  /** A fresh component shows the welcome screen. */
  lemma InitialShowsLanding(d: Dictionaries)
    ensures Render(Initial, d) == Landing
  {
  }

  /** Resetting always returns to the welcome screen. */
  lemma ResetShowsLanding(st: AppState, d: Dictionaries)
    ensures Render(Reset(st), d) == Landing
  {
  }

  /** While a request is out, the results screen shows the spinner and
      neither an error banner nor a report, whatever the state before. */
  lemma AnalysingShowsOnlySpinner(st: AppState, d: Dictionaries)
    requires Truthy(st.selectedImage)
    ensures Render(Started(st), d) == Results(Spinner, None, None)
  {
  }

  /** After a successful request the error banner is gone, and the report of
      `data[0]` is shown when it is a response object. */
  lemma SuccessShowsFirstReport(st: AppState, o: FetchOutcome, d: Dictionaries)
    requires Truthy(st.selectedImage) && ParseResponse(o).Success?
    ensures Render(Analyzed(st, o), d) == Results(
      Photo(st.selectedImage.value),
      None,
      if ParseResponse(o).value.Some? then Some(ViewReport(ParseResponse(o).value.value.output, d)) else None)
  {
  }

  /** An ok response whose array is empty clears the banner and shows no
      report at all, not even the previous one. */
  lemma EmptyResponseShowsNoReport(st: AppState, status: int, d: Dictionaries)
    requires Truthy(st.selectedImage) && StatusOk(status)
    ensures Render(Analyzed(st, HttpResponse(status, JsonArray([]))), d) == Results(Photo(st.selectedImage.value), None, None)
  {
  }

  /** A failed request shows the fixed message next to the report of the
      previous result, which the failure leaves in place. */
  lemma FailureKeepsPreviousReport(st: AppState, o: FetchOutcome, d: Dictionaries)
    requires Truthy(st.selectedImage) && ParseResponse(o).Failure?
    ensures Render(Analyzed(st, o), d) == Results(
      Photo(st.selectedImage.value),
      Some(FailureMessage),
      if st.analysisResult.Some? then Some(ViewReport(st.analysisResult.value.output, d)) else None)
  {
  }

  /** Choosing a new photo while a report is on screen, and failing to
      analyse it, shows the new photo beside the report of the old one. */
  lemma NewPhotoWithOldReport(st: AppState, url: string, o: FetchOutcome, d: Dictionaries)
    requires st.analysisResult.Some? && url != "" && ParseResponse(o).Failure?
    ensures Render(FileChanged(st, Picked(url), o), d) == Results(
      Photo(url), Some(FailureMessage), Some(ViewReport(st.analysisResult.value.output, d)))
  {
    FailureKeepsPreviousReport(st.(selectedImage := Some(url)), o, d);
  }

  /** Every completed analysis leaves the analysing flag off, so the report
      or the banner can show. */
  lemma AnalysisAlwaysEnds(st: AppState, pick: FilePick, o: FetchOutcome)
    requires !st.isAnalyzing
    ensures !FileChanged(st, pick, o).isAnalyzing
  {
  }

  /** The component's state variables and its handlers. */
  class App {
    var selectedImage: Option<string>
    var isAnalyzing: bool
    var analysisResult: Option<WebhookResponse>
    var error: Option<string>

    /** The four variables as one value. */
    function State(): AppState
      reads this
    {
      AppState(selectedImage, isAnalyzing, analysisResult, error)
    }

    /** Mounting: every variable at its initial value (src/App.tsx:44-47). */
    constructor()
      ensures State() == Initial
    {
      selectedImage := None;
      isAnalyzing := false;
      analysisResult := None;
      error := None;
    }

    /** src/App.tsx:73-74. */
    method StartAnalysis()
      modifies this
      ensures State() == Started(old(State()))
    {
      isAnalyzing := true;
      error := None;
    }

    /** src/App.tsx:76-96, once the request settled with `outcome`. */
    method FinishAnalysis(outcome: FetchOutcome)
      modifies this
      ensures State() == Finished(old(State()), outcome)
    {
      var parsed := ParseResponse(outcome);
      if parsed.Success? {
        analysisResult := parsed.value;
      } else {
        error := Some(FailureMessage);
      }
      isAnalyzing := false;
    }

    /** `analyzeImage` (src/App.tsx:72-97). */
    method AnalyzeImage(outcome: FetchOutcome)
      modifies this
      ensures State() == Analyzed(old(State()), outcome)
    {
      StartAnalysis();
      FinishAnalysis(outcome);
    }

    /** `handleFileChange` (src/App.tsx:58-70). */
    method HandleFileChange(pick: FilePick, outcome: FetchOutcome)
      modifies this
      ensures State() == FileChanged(old(State()), pick, outcome)
    {
      if pick.Picked? && pick.dataUrl != "" {
        selectedImage := Some(pick.dataUrl);
        AnalyzeImage(outcome);
      }
    }

    /** `resetAnalysis` (src/App.tsx:99-103). */
    method ResetAnalysis()
      modifies this
      ensures State() == Reset(old(State()))
    {
      selectedImage := None;
      analysisResult := None;
      error := None;
    }
  }
}
