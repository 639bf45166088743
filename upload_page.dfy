/**
 * frontend/src/pages/UploadPage.jsx: the checks `handleAnalyze` makes
 * before calling the analysis service, the resolution of the goal it
 * sends, the button rules, and the page's state as its handlers change it.
 * The service calls are not made here: their settled results are inputs.
 */
module UploadPage {
  import opened Wrappers
  import opened JsString
  import opened Json
  import AnalyzeHandler

  const CustomOption := "Other (custom)"
  const DefaultGoal := "Software Engineer (Full-Stack)"
  const CareerGoals: seq<string> := [
    "Software Engineer (Full-Stack)", "Cybersecurity Analyst", "Data Scientist", "UX/UI Designer",
    "Financial Analyst", "Marketing Manager (Digital)", "Mechanical Engineer",
    "Scotiabank – Software Engineer", "Dayforce – Software Engineer", CustomOption]

  const MinResumeLength := 50
  const MinCustomGoalLength := 3

  const ShortResumeError := "Please paste a more complete resume (at least 50 characters) to get an accurate analysis."
  const CustomGoalError := "Please enter your custom career goal in the text box."
  const NoFileError := "Please choose a file first."
  const AnalysisFailedPrefix := "Analysis failed. Please try again. Error: "
  const SendingStatus := "Sending resume to backend..."
  const WaitingStatus := "Waiting for Gemini analysis..."
  const CompleteStatus := "Analysis complete."
  const DashboardRoute := "/dashboard"

  /** The error shown when the analysis request fails with `message`. */
  function AnalysisFailedMessage(message: string): string {
    AnalysisFailedPrefix + message
  }

  /** What `handleAnalyze`'s checks decide: go ahead with this goal, or show this error. */
  datatype AnalyzeCheck = Proceed(finalGoal: string) | Reject(error: string)

  function CheckAnalyze(resumeText: string, careerGoal: string, customGoal: string): AnalyzeCheck {
    if |resumeText| < MinResumeLength then Reject(ShortResumeError)
    else if careerGoal == CustomOption && |Trim(customGoal)| < MinCustomGoalLength then Reject(CustomGoalError)
    else Proceed(if careerGoal == CustomOption then Trim(customGoal) else careerGoal)
  }

  /** The "Analyze" button's `disabled`. */
  predicate AnalyzeDisabled(isAnalyzing: bool, isUploading: bool, resumeText: string) {
    isAnalyzing || isUploading || |resumeText| < MinResumeLength
  }

  /** The "Extract text" button's `disabled`. */
  predicate UploadDisabled(selectedFile: Option<SelectedFile>, isUploading: bool, isAnalyzing: bool) {
    selectedFile.None? || isUploading || isAnalyzing
  }

  /** A settled promise: fulfilled with a value, or rejected with an error message. */
  datatype Settled<T> = Fulfilled(value: T) | Rejected(message: string)

  datatype SelectedFile = SelectedFile(name: string)

  /** The arguments of `analyzeResumeWithGemini(db, userId, resumeText, goal)` that come from the page. */
  datatype AnalyzeCall = AnalyzeCall(resumeText: string, careerGoal: string)
  /** The arguments of `uploadResumeFile(file, careerGoal)`. */
  datatype UploadCall = UploadCall(file: SelectedFile, careerGoal: string)

  /** The component's state; `analysisData` and `route` are the parent's state and the router's. */
  class Page {
    var resumeText: string
    var careerGoal: string
    var customCareerGoal: string
    var isAnalyzing: bool
    var error: Option<string>
    var selectedFile: Option<SelectedFile>
    var isUploading: bool
    var uploadError: Option<string>
    var analysisStatus: string
    var analysisData: Option<Json>
    var route: string

    /** The selected goal is never empty: it is a stored non-empty value or one of the options. */
    ghost predicate Valid()
      reads this
    {
      careerGoal != ""
    }

    /** The initial state, from what `localStorage` holds (None: the key is absent). */
    constructor(storedResume: Option<string>, storedGoal: Option<string>, storedCustomGoal: Option<string>,
                analysisData: Option<Json>, route: string)
      ensures Valid()
      ensures resumeText == storedResume.GetOr("")
      ensures careerGoal == if storedGoal.Some? && storedGoal.value != "" then storedGoal.value else DefaultGoal
      ensures customCareerGoal == storedCustomGoal.GetOr("")
      ensures !isAnalyzing && !isUploading && error == None && uploadError == None
      ensures selectedFile == None && analysisStatus == ""
      ensures this.analysisData == analysisData && this.route == route
    {
      resumeText := if storedResume.Some? && storedResume.value != "" then storedResume.value else "";
      careerGoal := if storedGoal.Some? && storedGoal.value != "" then storedGoal.value else DefaultGoal;
      customCareerGoal := if storedCustomGoal.Some? && storedCustomGoal.value != "" then storedCustomGoal.value else "";
      isAnalyzing, error, selectedFile, isUploading, uploadError, analysisStatus := false, None, None, false, None, "";
      this.analysisData, this.route := analysisData, route;
    }

    /**
     * `handleAnalyze`, with `outcome` the settled analysis request. A
     * rejected check sets its error and calls nothing; otherwise the call
     * is made with the resolved goal, and whatever it gives, `isAnalyzing`
     * ends false and the status empty.
     */
    method HandleAnalyze(outcome: Settled<Json>) returns (call: Option<AnalyzeCall>)
      requires Valid()
      modifies this`error, this`isAnalyzing, this`analysisStatus, this`analysisData, this`route
      ensures Valid()
      ensures var check := CheckAnalyze(old(resumeText), old(careerGoal), old(customCareerGoal));
        check.Reject? ==>
          && call == None && error == Some(check.error)
          && isAnalyzing == old(isAnalyzing) && analysisStatus == old(analysisStatus)
          && analysisData == old(analysisData) && route == old(route)
      ensures var check := CheckAnalyze(old(resumeText), old(careerGoal), old(customCareerGoal));
        check.Proceed? ==>
          && call == Some(AnalyzeCall(old(resumeText), check.finalGoal))
          && !isAnalyzing && analysisStatus == ""
          && (outcome.Fulfilled? ==> analysisData == Some(outcome.value) && route == DashboardRoute && error == None)
          && (outcome.Rejected? ==>
                analysisData == old(analysisData) && route == old(route) && error == Some(AnalysisFailedMessage(outcome.message)))
    {
      var check := CheckAnalyze(resumeText, careerGoal, customCareerGoal);
      if check.Reject? {
        error := Some(check.error);
        return None;
      }
      call := RunAnalysis(check.finalGoal, outcome);
    }

    /** The part of `handleAnalyze` after the checks: the `try`/`catch`/`finally` around the call. */
    method RunAnalysis(finalCareerGoal: string, outcome: Settled<Json>) returns (call: Option<AnalyzeCall>)
      modifies this`error, this`isAnalyzing, this`analysisStatus, this`analysisData, this`route
      ensures call == Some(AnalyzeCall(resumeText, finalCareerGoal))
      ensures !isAnalyzing && analysisStatus == ""
      ensures outcome.Fulfilled? ==> analysisData == Some(outcome.value) && route == DashboardRoute && error == None
      ensures outcome.Rejected? ==>
        analysisData == old(analysisData) && route == old(route) && error == Some(AnalysisFailedMessage(outcome.message))
    {
      error := None;
      isAnalyzing := true;
      analysisStatus := SendingStatus;
      analysisStatus := WaitingStatus;
      call := Some(AnalyzeCall(resumeText, finalCareerGoal));
      match outcome {
        case Fulfilled(result) =>
          analysisData := Some(result);
          analysisStatus := CompleteStatus;
          route := DashboardRoute;
        case Rejected(message) =>
          error := Some(AnalysisFailedMessage(message));
      }
      // finally
      isAnalyzing := false;
      analysisStatus := "";
    }

    /**
     * `handleUploadFile`, with `outcome` the settled upload giving the
     * extracted text. Without a selected file it only sets the error; with
     * one it uploads the file with the selected goal as it stands, and
     * `isUploading` ends false.
     */
    method HandleUploadFile(outcome: Settled<string>) returns (call: Option<UploadCall>)
      modifies this`uploadError, this`isUploading, this`resumeText, this`error
      ensures old(selectedFile).None? ==>
        && call == None && uploadError == Some(NoFileError)
        && resumeText == old(resumeText) && error == old(error) && isUploading == old(isUploading)
      ensures old(selectedFile).Some? ==>
        && call == Some(UploadCall(old(selectedFile).value, old(careerGoal)))
        && !isUploading
        && (outcome.Fulfilled? ==> resumeText == outcome.value && error == None && uploadError == None)
        && (outcome.Rejected? ==>
              resumeText == old(resumeText) && error == old(error) && uploadError == Some(outcome.message))
    {
      if selectedFile.None? {
        uploadError := Some(NoFileError);
        return None;
      }
      uploadError := None;
      isUploading := true;
      call := Some(UploadCall(selectedFile.value, careerGoal));
      match outcome {
        case Fulfilled(extractedText) =>
          resumeText := extractedText;
          error := None;
        case Rejected(message) =>
          uploadError := Some(message);
      }
      // finally
      isUploading := false;
    }

    /** The text area's `onChange`: the error is cleared once the text is longer than 50 characters. */
    method EditResume(text: string)
      modifies this`resumeText, this`error
      ensures resumeText == text
      ensures error == if |text| > MinResumeLength then None else old(error)
    {
      resumeText := text;
      if |text| > MinResumeLength {
        error := None;
      }
    }

    /** The custom-goal box's `onChange`: the error is cleared once the trimmed goal is longer than 2. */
    method EditCustomGoal(text: string)
      modifies this`customCareerGoal, this`error
      ensures customCareerGoal == text
      ensures error == if |Trim(text)| > 2 then None else old(error)
    {
      customCareerGoal := text;
      if |Trim(text)| > 2 {
        error := None;
      }
    }

    /** The goal selector's `onChange`, which offers only the listed goals. */
    method SelectGoal(goal: string)
      requires goal in CareerGoals
      modifies this`careerGoal
      ensures careerGoal == goal && Valid()
    {
      careerGoal := goal;
    }

    /** The file input's `onChange`: the chosen file (or none) replaces the selection and clears the upload error. */
    method ChooseFile(file: Option<SelectedFile>)
      modifies this`selectedFile, this`uploadError
      ensures selectedFile == file && uploadError == None
    {
      selectedFile := file;
      uploadError := None;
    }
  }

  // ---------------------------------------------------------------- properties

  /** A resume shorter than 50 characters is rejected first, whatever the goal. */
  lemma ShortResumeRejectedFirst(resumeText: string, careerGoal: string, customGoal: string)
    requires |resumeText| < MinResumeLength
    ensures CheckAnalyze(resumeText, careerGoal, customGoal) == Reject(ShortResumeError)
  {
  }

  /** With "Other (custom)" selected, a trimmed custom goal shorter than 3 is rejected. */
  lemma ShortCustomGoalRejected(resumeText: string, customGoal: string)
    requires |resumeText| >= MinResumeLength && |Trim(customGoal)| < MinCustomGoalLength
    ensures CheckAnalyze(resumeText, CustomOption, customGoal) == Reject(CustomGoalError)
  {
  }

  /**
   * The check passes exactly when the resume has 50 characters and, for a
   * custom goal, the trimmed goal has 3; the goal sent is then the trimmed
   * custom goal, which has no white space at either end, or else the
   * selected goal.
   */
  lemma FinalGoalResolution(resumeText: string, careerGoal: string, customGoal: string)
    ensures CheckAnalyze(resumeText, careerGoal, customGoal).Proceed? <==>
      |resumeText| >= MinResumeLength && (careerGoal == CustomOption ==> |Trim(customGoal)| >= MinCustomGoalLength)
    ensures var c := CheckAnalyze(resumeText, careerGoal, customGoal);
      c.Proceed? && careerGoal != CustomOption ==> c.finalGoal == careerGoal
    ensures var c := CheckAnalyze(resumeText, careerGoal, customGoal);
      c.Proceed? && careerGoal == CustomOption ==>
        && c.finalGoal == Trim(customGoal)
        && |c.finalGoal| >= MinCustomGoalLength
        && !IsWhiteSpace(c.finalGoal[0]) && !IsWhiteSpace(c.finalGoal[|c.finalGoal| - 1])
  {
    TrimIsInfix(customGoal);
  }

  /** With the button enabled, the resume-length check cannot fail. */
  lemma EnabledButtonPassesLengthCheck(isAnalyzing: bool, isUploading: bool,
                                       resumeText: string, careerGoal: string, customGoal: string)
    requires !AnalyzeDisabled(isAnalyzing, isUploading, resumeText)
    ensures CheckAnalyze(resumeText, careerGoal, customGoal) != Reject(ShortResumeError)
  {
  }

  /**
   * With the "Extract text" button enabled a file is selected, so
   * `handleUploadFile` never takes its no-file branch from a click, and no
   * other request is in progress.
   */
  lemma EnabledUploadHasFile(p: Page)
    requires !UploadDisabled(p.selectedFile, p.isUploading, p.isAnalyzing)
    ensures p.selectedFile.Some? && !p.isUploading && !p.isAnalyzing
  {
  }

  /**
   * A request the page lets through passes the server's input guard when
   * both values are posted as the body (so, by `AnalyzeHandler.InputGuard`,
   * it is never answered 400): the resume has 50 characters, and the goal
   * is the page's non-empty selection or a custom goal of 3.
   */
  lemma AcceptedRequestPassesServerGuard(p: Page)
    requires p.Valid()
    requires CheckAnalyze(p.resumeText, p.careerGoal, p.customCareerGoal).Proceed?
    ensures var body := Some(JObject(map[
        "resumeText" := JString(p.resumeText),
        "careerGoal" := JString(CheckAnalyze(p.resumeText, p.careerGoal, p.customCareerGoal).finalGoal)]));
      Truthy(AnalyzeHandler.ResumeTextOf(body)) && Truthy(AnalyzeHandler.CareerGoalOf(body))
  {
    FinalGoalResolution(p.resumeText, p.careerGoal, p.customCareerGoal);
    var goal := CheckAnalyze(p.resumeText, p.careerGoal, p.customCareerGoal).finalGoal;
    assert goal != "";
    var body := Some(JObject(map["resumeText" := JString(p.resumeText), "careerGoal" := JString(goal)]));
    assert AnalyzeHandler.ResumeTextOf(body) == Some(JString(p.resumeText));
    assert AnalyzeHandler.CareerGoalOf(body) == Some(JString(goal));
  }
}
