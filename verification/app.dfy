/**
 * The session flow controller (App.tsx): a state machine over the step shown
 * (1 upload, 2 persona choice, 3 questionnaire, 4 results, 10 video analysis),
 * the loading flag, the error banner, the tab the upload panel opens on, and
 * the six entities gathered along the way.
 *
 * Each handler runs as one atomic step. The outcome of the remote call it
 * awaits is a parameter: `Success(x)` for a resolved promise, `Failure` for a
 * rejected one. A stage resolves with whatever its decoder produced, which may be
 * `null`: the stage results are therefore `Option`s, `None` standing for `null`.
 */
module App {
  import opened Wrappers
  import opened Types

  /** The settled outcome of an awaited remote call. */
  datatype Outcome<X> = Success(value: X) | Failure

  /** The handlers the rendered components can fire. */
  datatype Handler = RoutineUpload | PersonaSelect | ProfileComplete | Reset | VideoReset

  const VideoError := "No se pudo analizar el video. Intenta con un clip más corto."
  const PreAnalysisError := "Error analizando la rutina. Inténtalo de nuevo."
  const DeepAnalysisError := "Error en el análisis profundo. Verifica tu conexión."

  /** The MIME type the video stage is called with: the input's own, or "video/mp4" when it is missing or empty. */
  function VideoMimeType(input: RoutineInput): (r: string)
    ensures Truthy(input.mimeType) ==> r == input.mimeType.value
    ensures !Truthy(input.mimeType) ==> r == "video/mp4"
    ensures r != ""
  {
    if Truthy(input.mimeType) then input.mimeType.value else "video/mp4"
  }

  /** `getCurrentStepLabel`: the caption of a step; every step it does not name reads as the results. */
  function StepLabel(step: int): (r: string)
    ensures step == 1 ==> r == "Subir Rutina"
    ensures step == 2 ==> r == "Elegir Auditor"
    ensures step == 3 ==> r == "Diagnóstico"
    ensures step == 10 ==> r == "Video Análisis"
    ensures r == "Resultados" <==> step !in {1, 2, 3, 10}
  {
    if step == 1 then "Subir Rutina"
    else if step == 2 then "Elegir Auditor"
    else if step == 3 then "Diagnóstico"
    else if step == 10 then "Video Análisis"
    else "Resultados"
  }

  class FlowController {
    var step: int
    var loading: bool
    var error: Option<string>
    var initialUploadTab: UploadTab
    var routineData: Option<RoutineInput>
    var selectedPersona: Option<PersonaId>
    var preAnalysis: Option<PreAnalysisResult>
    var userProfile: Option<UserProfile>
    var analysis: Option<BiomechanicalAnalysis>
    var videoResult: Option<VideoAnalysisResult>

    /**
     * What holds between handlers: nothing is loading, the step is one the page knows,
     * each step has the inputs that led to it, the stored profile carries the selected
     * persona, and the profile and the analysis only exist on the questionnaire and
     * results steps. The stage results themselves may be `null` (see `Blank`).
     */
    predicate Consistent()
      reads this
    {
      && step in {1, 2, 3, 4, 10}
      && !loading
      && (step == 2 ==> routineData.Some?)
      && (step == 3 ==> routineData.Some? && selectedPersona.Some?)
      && (step == 4 ==> userProfile.Some?)
      && (step == 10 ==> routineData.Some? && routineData.value.kind == VideoInput)
      && (userProfile.Some? ==>
            (step == 3 || step == 4) && selectedPersona.Some? && userProfile.value.persona == selectedPersona.value)
      && (analysis.Some? ==> step == 4)
    }

    /** Whether the component that fires `h` is on screen. */
    predicate Shown(h: Handler)
      reads this
    {
      match h
      case RoutineUpload => step == 1 && !loading
      case PersonaSelect => step == 2
      case ProfileComplete => step == 3 && preAnalysis.Some? && selectedPersona.Some?
      case Reset => step > 1
      case VideoReset => step == 10 && routineData.Some?
    }

    /**
     * The main area renders nothing: the page is on the questionnaire, results or video
     * step but the render gate of that step's component fails.
     */
    predicate Blank()
      reads this
    {
      || (step == 3 && !(preAnalysis.Some? && selectedPersona.Some?))
      || (step == 4 && !(analysis.Some? && userProfile.Some?))
      || (step == 10 && routineData.None?)
    }

    /** The page as first rendered. */
    constructor ()
      ensures step == 1 && !loading && error == None && initialUploadTab == AppTab
      ensures routineData == None && selectedPersona == None && preAnalysis == None
      ensures userProfile == None && analysis == None && videoResult == None
      ensures Consistent()
    {
      step := 1;
      loading := false;
      error := None;
      initialUploadTab := AppTab;
      routineData := None;
      selectedPersona := None;
      preAnalysis := None;
      userProfile := None;
      analysis := None;
      videoResult := None;
    }

    /**
     * `handleRoutineUpload`: a non-video input is stored and leads to the persona step.
     * A video is analysed at once (`videoCall` is the pair of arguments the video stage
     * receives): on success the result is kept and the stored input's content becomes
     * the local preview URL, on failure the page returns to step 1 on the video tab.
     */
    method HandleRoutineUpload(input: RoutineInput, videoOutcome: Outcome<Option<VideoAnalysisResult>>, previewUrl: string)
      returns (videoCall: Option<(string, string)>)
      modifies this
      ensures input.kind != VideoInput ==>
        && videoCall == None
        && routineData == Some(input) && error == None && step == 2
        && loading == old(loading) && initialUploadTab == old(initialUploadTab) && videoResult == old(videoResult)
      ensures input.kind == VideoInput ==>
        && videoCall == Some((input.content, VideoMimeType(input)))
        && !loading
        && (videoOutcome.Success? ==>
              && step == 10 && error == None && videoResult == videoOutcome.value
              && routineData == Some(input.(content := previewUrl))
              && initialUploadTab == old(initialUploadTab))
        && (videoOutcome.Failure? ==>
              && step == 1 && error == Some(VideoError) && initialUploadTab == VideoTab
              && routineData == Some(input) && videoResult == old(videoResult))
      ensures selectedPersona == old(selectedPersona) && preAnalysis == old(preAnalysis)
      ensures userProfile == old(userProfile) && analysis == old(analysis)
      ensures old(Consistent() && Shown(RoutineUpload)) ==> Consistent()
      ensures !Blank()
    {
      routineData := Some(input);
      error := None;
      if input.kind == VideoInput {
        step := 10;
        loading := true;
        videoCall := Some((input.content, VideoMimeType(input)));
        match videoOutcome {
          case Success(result) =>
            videoResult := result;
            routineData := Some(input.(content := previewUrl));
          case Failure =>
            error := Some(VideoError);
            step := 1;
            initialUploadTab := VideoTab;
        }
        loading := false;
        return;
      }
      videoCall := None;
      step := 2;
    }

    /**
     * `handlePersonaSelect`: ignored without a stored routine; otherwise the persona is
     * recorded and the pre-analysis either leads to the questionnaire or back to step 1,
     * keeping the routine. A pre-analysis that resolves to `null` still leads to step 3,
     * where the questionnaire's gate fails and the page is blank.
     */
    method HandlePersonaSelect(personaId: PersonaId, outcome: Outcome<Option<PreAnalysisResult>>)
      returns (preAnalysisCall: Option<(RoutineInput, PersonaId)>)
      modifies this
      ensures old(routineData).None? ==>
        && preAnalysisCall == None
        && step == old(step) && loading == old(loading) && error == old(error)
        && selectedPersona == old(selectedPersona) && preAnalysis == old(preAnalysis)
      ensures old(routineData).Some? ==>
        && preAnalysisCall == Some((old(routineData).value, personaId))
        && selectedPersona == Some(personaId) && !loading
        && (outcome.Success? ==> preAnalysis == outcome.value && step == 3 && error == None)
        && (outcome.Failure? ==>
              preAnalysis == old(preAnalysis) && step == 1 && error == Some(PreAnalysisError))
      ensures routineData == old(routineData) && initialUploadTab == old(initialUploadTab)
      ensures userProfile == old(userProfile) && analysis == old(analysis) && videoResult == old(videoResult)
      ensures old(Consistent() && Shown(PersonaSelect)) ==> Consistent()
      ensures old(routineData).Some? ==> (Blank() <==> outcome == Success(None))
    {
      if routineData.None? {
        return None;
      }
      selectedPersona := Some(personaId);
      loading := true;
      error := None;
      preAnalysisCall := Some((routineData.value, personaId));
      match outcome {
        case Success(result) =>
          preAnalysis := result;
          step := 3;
        case Failure =>
          error := Some(PreAnalysisError);
          step := 1;
      }
      loading := false;
    }

    /**
     * `handleProfileComplete`: ignored without a selected persona; otherwise the profile
     * is stored with the selected persona injected, and, when a routine is stored, the
     * deep analysis either leads to the results or leaves the step as it was with the
     * error banner set. An analysis that resolves to `null` still leads to step 4, where
     * the results' gate fails and the page is blank.
     */
    method HandleProfileComplete(profileData: UserProfile, outcome: Outcome<Option<BiomechanicalAnalysis>>)
      returns (analysisCall: Option<(UserProfile, RoutineInput)>)
      modifies this
      ensures old(selectedPersona).None? ==>
        && analysisCall == None
        && step == old(step) && loading == old(loading) && error == old(error)
        && userProfile == old(userProfile) && analysis == old(analysis)
      ensures old(selectedPersona).Some? ==>
        var full := profileData.(persona := old(selectedPersona).value);
        && userProfile == Some(full) && !loading
        && (old(routineData).None? ==>
              analysisCall == None && error == None && step == old(step) && analysis == old(analysis))
        && (old(routineData).Some? ==>
              && analysisCall == Some((full, old(routineData).value))
              && (outcome.Success? ==> analysis == outcome.value && step == 4 && error == None)
              && (outcome.Failure? ==>
                    analysis == old(analysis) && step == old(step) && error == Some(DeepAnalysisError)))
      ensures routineData == old(routineData) && selectedPersona == old(selectedPersona)
      ensures preAnalysis == old(preAnalysis) && initialUploadTab == old(initialUploadTab)
      ensures videoResult == old(videoResult)
      ensures old(Consistent() && Shown(ProfileComplete)) ==> Consistent()
      ensures old(Shown(ProfileComplete) && routineData.Some?) ==> (Blank() <==> outcome == Success(None))
    {
      if selectedPersona.None? {
        return None;
      }
      var fullProfile := profileData.(persona := selectedPersona.value);
      userProfile := Some(fullProfile);
      loading := true;
      error := None;
      analysisCall := None;
      if routineData.Some? {
        analysisCall := Some((fullProfile, routineData.value));
        match outcome {
          case Success(result) =>
            analysis := result;
            step := 4;
          case Failure =>
            error := Some(DeepAnalysisError);
        }
      }
      loading := false;
    }

    /** `handleReset`: back to the first step on the apps tab with every entity and the error cleared. */
    method HandleReset()
      modifies this
      ensures step == 1 && initialUploadTab == AppTab && error == None
      ensures routineData == None && selectedPersona == None && preAnalysis == None
      ensures userProfile == None && analysis == None && videoResult == None
      ensures loading == old(loading)
      ensures old(Consistent() && Shown(Reset)) ==> Consistent()
    {
      step := 1;
      initialUploadTab := AppTab;
      routineData := None;
      selectedPersona := None;
      preAnalysis := None;
      userProfile := None;
      analysis := None;
      videoResult := None;
      error := None;
    }

    /**
     * `handleVideoReset`: back to the first step on the video tab with the routine, the
     * video result and the error cleared; persona, pre-analysis, profile and analysis stay.
     */
    method HandleVideoReset()
      modifies this
      ensures step == 1 && initialUploadTab == VideoTab && error == None
      ensures routineData == None && videoResult == None
      ensures selectedPersona == old(selectedPersona) && preAnalysis == old(preAnalysis)
      ensures userProfile == old(userProfile) && analysis == old(analysis)
      ensures loading == old(loading)
      ensures old(Consistent() && Shown(VideoReset)) ==> Consistent()
    {
      step := 1;
      initialUploadTab := VideoTab;
      routineData := None;
      videoResult := None;
      error := None;
    }
  }
}
