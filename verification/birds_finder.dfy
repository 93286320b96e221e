/** The identification page's decision logic: the confidence bands behind the
    colour and the label of a result, the page state and the transitions of
    selecting a file, cancelling and identifying, and the progress counter.
    Confidences here are percentages. */
module BirdsFinder {
  import opened Wrappers
  import opened ClientValidation

  /** `"high" | "medium" | "low"` */
  datatype ConfidenceLevel = High | Medium | Low

  /** The band a confidence falls in: [80, ∞) high, [60, 80) medium, below 60 low. */
  function Level(confidence: real): ConfidenceLevel
  {
    if 80.0 <= confidence then High
    else if 60.0 <= confidence < 80.0 then Medium
    else Low
  }

  function Rank(level: ConfidenceLevel): nat
  {
    match level
    case Low => 0
    case Medium => 1
    case High => 2
  }

  /** The colour classes of each band. */
  function ColorOf(level: ConfidenceLevel): string
  {
    match level
    case High => "text-green-600 bg-green-50 border-green-200"
    case Medium => "text-yellow-600 bg-yellow-50 border-yellow-200"
    case Low => "text-red-600 bg-red-50 border-red-200"
  }

  /** The label of each band. */
  function LabelOf(level: ConfidenceLevel): string
  {
    match level
    case High => "Alta confianza"
    case Medium => "Confianza media"
    case Low => "Baja confianza"
  }

  /** `getConfidenceColor(confidence)`: the colour of the confidence's band. */
  function ConfidenceColor(confidence: real): (color: string)
    ensures color == ColorOf(Level(confidence))
  {
    if confidence >= 80.0 then "text-green-600 bg-green-50 border-green-200"
    else if confidence >= 60.0 then "text-yellow-600 bg-yellow-50 border-yellow-200"
    else "text-red-600 bg-red-50 border-red-200"
  }

  /** `getConfidenceLabel(confidence)`: the label of the confidence's band. */
  function ConfidenceLabel(confidence: real): (text: string)
    ensures text == LabelOf(Level(confidence))
  {
    if confidence >= 80.0 then "Alta confianza"
    else if confidence >= 60.0 then "Confianza media"
    else "Baja confianza"
  }

  /** Colour and label always name the same band: two confidences get the
      same colour exactly when they get the same label. */
  lemma ColorAndLabelAgree(c1: real, c2: real)
    ensures ConfidenceColor(c1) == ConfidenceColor(c2) <==> ConfidenceLabel(c1) == ConfidenceLabel(c2)
    ensures ConfidenceColor(c1) == ConfidenceColor(c2) <==> Level(c1) == Level(c2)
  {
    var l1, l2 := Level(c1), Level(c2);
    if l1 != l2 {
      assert ColorOf(l1)[5] != ColorOf(l2)[5];
    }
  }

  /** A higher confidence never falls in a lower band. */
  lemma BandIsMonotone(c1: real, c2: real)
    requires c1 <= c2
    ensures Rank(Level(c1)) <= Rank(Level(c2))
  {
  }

  datatype ClientAlternative = ClientAlternative(name: string, confidence: real)

  datatype ClientDetails = ClientDetails(image: string, size: string, weight: string, colors: string)

  /** A result as the page shows it. */
  datatype IdentificationResult = IdentificationResult(
    confidence: real,
    commonName: string,
    scientificName: string,
    alternatives: seq<ClientAlternative>,
    details: ClientDetails)

  /** The page's state hooks that the core transitions touch. */
  datatype Finder = Finder(
    file: Option<BrowserFile>,
    isAnalyzing: bool,
    progress: int,
    result: Option<IdentificationResult>,
    error: Option<string>)

  const Initial: Finder := Finder(None, false, 0, None, None)

  const UnknownErrorMessage: string := "Error desconocido"
  const NoFileLoadedMessage: string := "Por favor, carga un archivo de audio primero"
  const AnalysisFailedMessage: string :=
    "Ocurrió un error al procesar el audio. Por favor, intenta nuevamente."

  /** `validation.error || "Error desconocido"`: the validation's message,
      or the generic one when it has none; never blank. */
  function ErrorText(error: Option<string>): (text: string)
    ensures text != ""
    ensures error.Some? && error.value != "" ==> text == error.value
    ensures error.None? ==> text == UnknownErrorMessage
  {
    if error.Some? && error.value != "" then error.value else UnknownErrorMessage
  }

  /** `handleFileSelect(selectedFile)`: nothing happens without a selection;
      an invalid file only sets the validation's message; a valid file is
      kept and clears the previous result and error. */
  function HandleFileSelect(s: Finder, selected: Option<BrowserFile>): (t: Finder)
    ensures selected.None? ==> t == s
    ensures selected.Some? && !ValidateFile(selected).valid ==>
              t.error == ValidateFile(selected).error && t == s.(error := t.error)
    ensures selected.Some? && ValidateFile(selected).valid ==>
              t == s.(file := selected, result := None, error := None)
  {
    if selected.None? then s
    else
      var validation := ValidateFile(selected);
      if !validation.valid then s.(error := Some(ErrorText(validation.error)))
      else s.(file := selected, result := None, error := None)
  }

  /** `handleCancel()` */
  function HandleCancel(s: Finder): (t: Finder)
    ensures t.file.None? && t.result.None? && t.error.None?
    ensures t.isAnalyzing == s.isAnalyzing && t.progress == s.progress
  {
    s.(file := None, result := None, error := None)
  }

  /** The synchronous half of `handleIdentify()`, up to its `await`: without
      a file only an error is shown; otherwise the analysis flag is raised,
      the error cleared and the progress counter restarted. The file and any
      earlier result stay as they are. */
  function StartIdentify(s: Finder): (t: Finder)
    ensures s.file.None? ==> t == s.(error := Some(NoFileLoadedMessage))
    ensures s.file.Some? ==> t.isAnalyzing && t.error.None? && t.progress == 0
    ensures t.file == s.file && t.result == s.result
  {
    if s.file.None? then s.(error := Some(NoFileLoadedMessage))
    else s.(isAnalyzing := true, error := None, progress := 0)
  }

  /** The half of `handleIdentify()` after its `await`, applied to whatever
      state the page is in by then, with the analysis outcome (a result, or a
      throw) as an input: the result or the failure message is shown, and the
      flag and the counter are reset. The file is not looked at, so a cancel
      or a new selection made meanwhile is kept. */
  function SettleIdentify(s: Finder, analysis: Option<IdentificationResult>): (t: Finder)
    ensures t.file == s.file && !t.isAnalyzing && t.progress == 0
    ensures analysis.Some? ==> t.result == analysis && t.error == s.error
    ensures analysis.None? ==> t.result == s.result && t.error == Some(AnalysisFailedMessage)
  {
    var settled :=
      if analysis.Some? then s.(result := analysis)
      else s.(error := Some(AnalysisFailedMessage));
    settled.(isAnalyzing := false, progress := 0)
  }

  /** Left alone while it runs, an identification shows its outcome next to
      the file it was started for. */
  lemma IdentifyUninterrupted(s: Finder, analysis: Option<IdentificationResult>)
    requires s.file.Some?
    ensures var t := SettleIdentify(StartIdentify(s), analysis);
            && t.file == s.file && !t.isAnalyzing && t.progress == 0
            && (analysis.Some? ==> t.result == analysis && t.error.None?)
            && (analysis.None? ==> t.result == s.result && t.error == Some(AnalysisFailedMessage))
  {
  }

  /** Only the identify button is disabled during the analysis. A cancel made
      meanwhile is overridden by the late result: the page ends up showing a
      result with no file loaded. */
  lemma CancelDuringAnalysisLeavesResultWithoutFile(s: Finder, r: IdentificationResult)
    requires s.file.Some?
    ensures var t := SettleIdentify(HandleCancel(StartIdentify(s)), Some(r));
            t.file.None? && t.result == Some(r)
  {
  }

  /** Likewise a new file selected meanwhile ends up next to the result of
      the analysis started for the previous file. */
  lemma NewFileDuringAnalysisGetsEarlierResult(s: Finder, f: BrowserFile, r: IdentificationResult)
    requires s.file.Some? && ValidateFile(Some(f)).valid
    ensures var t := SettleIdentify(HandleFileSelect(StartIdentify(s), Some(f)), Some(r));
            t.file == Some(f) && t.result == Some(r)
  {
  }

  /** The page never holds a file its own validation rejects. */
  predicate HoldsOnlyValidFile(s: Finder)
  {
    s.file.Some? ==> ValidateFile(s.file).valid
  }

  /** Every transition keeps that invariant. */
  lemma TransitionsKeepValidFile(s: Finder, selected: Option<BrowserFile>, analysis: Option<IdentificationResult>)
    requires HoldsOnlyValidFile(s)
    ensures HoldsOnlyValidFile(HandleFileSelect(s, selected))
    ensures HoldsOnlyValidFile(HandleCancel(s))
    ensures HoldsOnlyValidFile(StartIdentify(s))
    ensures HoldsOnlyValidFile(SettleIdentify(s, analysis))
    ensures HoldsOnlyValidFile(s.(progress := ProgressTick(s.progress)))
  {
  }

  /** The counter's values: a multiple of ten from 0 to 100. */
  predicate OnGrid(progress: int)
  {
    0 <= progress <= 100 && progress % 10 == 0
  }

  /** The interval's updater: up by 10 until 100, then held at 100. On the
      grid it never goes down and never leaves the grid. */
  function ProgressTick(previous: int): (next: int)
    ensures OnGrid(previous) ==> OnGrid(next) && previous <= next
    ensures OnGrid(previous) && previous < 100 ==> next == previous + 10
  {
    if previous >= 100 then 100 else previous + 10
  }

  /** The counter after `n` ticks from 0. */
  function ProgressAfter(n: nat): int
  {
    if n == 0 then 0 else ProgressTick(ProgressAfter(n - 1))
  }

  /** Starting from 0, the counter climbs in steps of ten and stops at 100:
      after `n` ticks it reads min(10·n, 100). */
  lemma {:induction false} ProgressSchedule(n: nat)
    ensures ProgressAfter(n) == if n <= 10 then 10 * n else 100
    ensures 0 <= ProgressAfter(n) <= 100 && ProgressAfter(n) % 10 == 0
  {
    if n > 0 {
      ProgressSchedule(n - 1);
    }
  }

  /** Once 100 is reached it stays there. */
  lemma ProgressStaysFull(n: nat, m: nat)
    requires ProgressAfter(n) == 100
    ensures ProgressAfter(n + m) == 100
  {
    ProgressSchedule(n);
    ProgressSchedule(n + m);
  }
}
