/**
 * The shared data model of the application (types.ts): the closed enumerations
 * with the Spanish strings they stand for, and the records passed between the
 * upload step, the analysis gateway, the questionnaire and the flow controller.
 */
module Types {
  import opened Wrappers

  /** A JavaScript number as far as this model needs one: NaN or an integer. */
  datatype Number = NaN | Num(value: int) {
    /** JavaScript truthiness of a number: NaN and 0 are falsy. */
    predicate Truthy() {
      Num? && value != 0
    }
  }

  /** The six training goals (types.ts `UserGoal`). */
  datatype UserGoal = Hypertrophy | Strength | Endurance | WeightLoss | Mobility | Rehab {
    function Text(): string {
      match this
      case Hypertrophy => "Hipertrofia (Ganancia Muscular)"
      case Strength => "Fuerza Máxima"
      case Endurance => "Resistencia"
      case WeightLoss => "Pérdida de Peso"
      case Mobility => "Movilidad y Salud"
      case Rehab => "Rehabilitación"
    }
  }

  /** The eight training modalities (types.ts `TrainingType`). */
  datatype TrainingType =
    | Weights | Calisthenics | Functional | HomeWorkout | Hybrid | Powerlifting | YogaPilates | Undefined
  {
    function Text(): string {
      match this
      case Weights => "Pesas / Gym"
      case Calisthenics => "Calistenia"
      case Functional => "Entrenamiento Funcional / CrossFit"
      case HomeWorkout => "En Casa"
      case Hybrid => "Híbrido"
      case Powerlifting => "Powerlifting"
      case YogaPilates => "Yoga / Pilates"
      case Undefined => "No identificado"
    }
  }

  /** The three experience levels (types.ts `ExperienceLevel`). */
  datatype ExperienceLevel = Beginner | Intermediate | Advanced {
    function Text(): string {
      match this
      case Beginner => "Principiante (< 1 año)"
      case Intermediate => "Intermedio (1-3 años)"
      case Advanced => "Avanzado (> 3 años)"
    }
  }

  /** The three persona voices (types.ts `PersonaId`). */
  datatype PersonaId = Sara | Todor | Raul {
    /** The identifier string the source uses for the persona. */
    function Key(): string {
      match this
      case Sara => "sara"
      case Todor => "todor"
      case Raul => "raul"
    }
  }

  /** The six input kinds (types.ts `InputType`). */
  datatype InputType = TextInput | ImageInput | PdfInput | UrlInput | CsvInput | VideoInput {
    function Key(): string {
      match this
      case TextInput => "text"
      case ImageInput => "image"
      case PdfInput => "pdf"
      case UrlInput => "url"
      case CsvInput => "csv"
      case VideoInput => "video"
    }

    /** The kinds whose content is raw text rather than base64 media. */
    predicate IsTextKind() {
      this == TextInput || this == UrlInput || this == CsvInput
    }
  }

  /** The tabs of the upload panel (`'app' | 'upload' | 'video' | 'text' | 'url'`). */
  datatype UploadTab = AppTab | FileTab | VideoTab | TextTab | UrlTab

  /** What the user handed in; `mimeType` is optional. */
  datatype RoutineInput = RoutineInput(kind: InputType, content: string, mimeType: Option<string>)

  /** JavaScript truthiness of an optional string: absent and empty are falsy. */
  predicate Truthy(s: Option<string>) {
    s.Some? && s.value != ""
  }

  /** The four set tags (types.ts `WorkoutSet.type`). */
  datatype SetType = Normal | Warmup | Drop | Failure

  /** One logged set; `rpe` is optional and, when present, may be NaN. */
  datatype WorkoutSet = WorkoutSet(exercise: string, weight: nat, reps: nat, rpe: Option<Number>, setType: SetType)

  /** One day of imported history, keyed by its date text. */
  datatype WorkoutSession = WorkoutSession(date: string, title: string, sets: seq<WorkoutSet>)

  /** JavaScript `s || fallback` on an optional string. */
  function OrElse(s: Option<string>, fallback: string): (r: string)
    ensures Truthy(s) ==> r == s.value
    ensures !Truthy(s) ==> r == fallback
  {
    if Truthy(s) then s.value else fallback
  }

  /**
   * The first-pass classification. The decoded JSON is cast without validation, so the
   * detected type and goal are whatever text the service wrote, not necessarily one of
   * the enumerations' texts, and may be missing: `None` stands for that.
   */
  datatype PreAnalysisResult = PreAnalysisResult(
    detectedTrainingType: Option<string>,
    detectedGoalGuess: Option<string>,
    confidenceScore: int,
    specificQuestion: string,
    summaryObservation: string)

  /**
   * The submitted profile: `customAnswer` is the only optional field. The training type
   * is a text because the form may hold the detected type, which need not be one of the
   * `TrainingType` texts.
   */
  datatype UserProfile = UserProfile(
    goal: string,
    trainingType: string,
    injuries: string,
    experience: ExperienceLevel,
    age: Number,
    gender: string,
    customAnswer: Option<string>,
    persona: PersonaId)

  datatype ExerciseKind = Compound | Isolation | Cardio | MobilityWork

  datatype DetectedExercise = DetectedExercise(
    name: string, targetGroup: string, kind: ExerciseKind, variantDetected: string, technicalTip: Option<string>)

  datatype ExerciseRecommendation = ExerciseRecommendation(
    original: Option<string>, recommended: string, sets: string, reps: string, rest: string,
    reason: string, youtubeQuery: string)

  datatype WarmUpExercise = WarmUpExercise(name: string, description: string, dosage: string)

  /** The terminal artifact of the standard flow. */
  datatype BiomechanicalAnalysis = BiomechanicalAnalysis(
    summary: string,
    score: int,
    detectedExercises: seq<DetectedExercise>,
    safetyAssessment: string,
    alignmentWithGoal: string,
    modifications: seq<ExerciseRecommendation>,
    warmUpRecommendations: seq<WarmUpExercise>,
    generalAdvice: seq<string>)

  datatype SetupStatus = StatusOk | Attention

  datatype SetupItem = SetupItem(
    labelText: string, value: string, status: SetupStatus, recommendation: Option<string>, shoppingQuery: Option<string>)

  datatype VideoAnalysisMetrics = VideoAnalysisMetrics(
    depth: Option<string>, lockout: Option<string>, rom: Option<string>,
    tempo: Option<string>, barPath: Option<string>, stability: Option<string>)

  datatype FeedbackKind = Correction | Optimization

  datatype VideoAnalysisFeedback = VideoAnalysisFeedback(
    kind: FeedbackKind, text: string, positive: seq<string>, negative: seq<string>, youtubeQuery: string)

  /** The terminal artifact of the video flow. */
  datatype VideoAnalysisResult = VideoAnalysisResult(
    exerciseName: string,
    variant: string,
    repCount: int,
    confidence: int,
    cameraAngle: string,
    repsTimeline: Option<seq<string>>,
    setupDetails: seq<SetupItem>,
    metrics: VideoAnalysisMetrics,
    feedback: VideoAnalysisFeedback)

  /** The goal strings are pairwise distinct, so a goal is recovered from its text. */
  lemma GoalTextInjective(a: UserGoal, b: UserGoal)
    ensures a.Text() == b.Text() <==> a == b
  {
    if a != b {
      assert a.Text()[0] != b.Text()[0] || a.Text()[2] != b.Text()[2];
    }
  }

  /** The training-type strings are pairwise distinct. */
  lemma TrainingTextInjective(a: TrainingType, b: TrainingType)
    ensures a.Text() == b.Text() <==> a == b
  {
    if a != b {
      assert a.Text()[0] != b.Text()[0] || a.Text()[1] != b.Text()[1] || a.Text()[2] != b.Text()[2];
    }
  }

  /** The experience-level strings are pairwise distinct. */
  lemma ExperienceTextInjective(a: ExperienceLevel, b: ExperienceLevel)
    ensures a.Text() == b.Text() <==> a == b
  {
    if a != b {
      assert a.Text()[0] != b.Text()[0];
    }
  }

  /** Every goal text differs from every training-type text. */
  lemma GoalAndTrainingTextsDisjoint(g: UserGoal, t: TrainingType)
    ensures g.Text() != t.Text()
  {
    assert g.Text()[0] != t.Text()[0] || g.Text()[1] != t.Text()[1];
  }

  /** The persona identifiers are pairwise distinct strings. */
  lemma PersonaKeyInjective(a: PersonaId, b: PersonaId)
    ensures a.Key() == b.Key() <==> a == b
  {
    if a != b {
      assert a.Key()[0] != b.Key()[0];
    }
  }

  /** The input-kind identifiers are pairwise distinct strings. */
  lemma InputKeyInjective(a: InputType, b: InputType)
    ensures a.Key() == b.Key() <==> a == b
  {
    if a != b {
      assert a.Key()[0] != b.Key()[0];
    }
  }
}
