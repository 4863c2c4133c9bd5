/**
 * The profile questionnaire (components/Questionnaire.tsx): the draft profile
 * it edits, the custom-goal mode, the validity rule that gates submission and
 * the badges that mark values taken from the pre-analysis.
 */
module Questionnaire {
  import opened Wrappers
  import opened Types
  import opened Strings

  /** The select value that switches the goal to free text. */
  const OtherCustom := "OTHER_CUSTOM"

  /**
   * The profile as the form holds it before submission: the goal and the training type
   * are the texts of the selected options (the detected values among them), the age is
   * what `parseInt` made of the age field (possibly NaN), and the persona is not part of
   * it (the flow controller adds it).
   */
  datatype ProfileDraft = ProfileDraft(
    goal: string,
    trainingType: string,
    experience: ExperienceLevel,
    gender: string,
    age: Number,
    injuries: string,
    customAnswer: string)

  /** One `handleChange(field, value)` call: the field named and the value it receives. */
  datatype FieldChange =
    | GoalChange(goal: string)
    | TrainingTypeChange(trainingType: string)
    | ExperienceChange(experience: ExperienceLevel)
    | GenderChange(gender: string)
    | AgeChange(age: Number)
    | InjuriesChange(injuries: string)
    | CustomAnswerChange(customAnswer: string)

  /** The goal part of the validity rule; lengths are JavaScript's, in UTF-16 code units. */
  predicate GoalValid(draft: ProfileDraft, isCustomGoal: bool, customGoalText: string) {
    if isCustomGoal then Utf16Length(Trim(customGoalText)) > 2 else draft.goal != ""
  }

  /**
   * `isFormValid`: a usable goal, a non-empty training type, an answer to the key
   * question longer than three code units once trimmed, and a positive age.
   */
  predicate FormValid(draft: ProfileDraft, isCustomGoal: bool, customGoalText: string) {
    && GoalValid(draft, isCustomGoal, customGoalText)
    && draft.trainingType != ""
    && draft.customAnswer != "" && Utf16Length(Trim(draft.customAnswer)) > 3
    && draft.age.Truthy() && draft.age.value > 0
  }

  /** The goal `handleSubmit` sends: the custom text in custom mode, the selected goal otherwise. */
  function FinalGoal(draft: ProfileDraft, isCustomGoal: bool, customGoalText: string): string {
    if isCustomGoal then customGoalText else draft.goal
  }

  /** A valid form never submits a blank goal or a blank answer, nor a non-positive age. */
  lemma ValidSubmissionIsFilled(draft: ProfileDraft, isCustomGoal: bool, customGoalText: string)
    requires FormValid(draft, isCustomGoal, customGoalText)
    ensures !AllWhitespace(FinalGoal(draft, isCustomGoal, customGoalText)) || !isCustomGoal
    ensures FinalGoal(draft, isCustomGoal, customGoalText) != ""
    ensures draft.trainingType != ""
    ensures !AllWhitespace(draft.customAnswer)
    ensures draft.age.Num? && draft.age.value >= 1
  {
    if isCustomGoal {
      assert Trim(customGoalText) != [];
    }
  }

  /**
   * Whitespace does not count: padding the answer to the key question with blanks
   * never turns an invalid form into a valid one.
   */
  lemma PaddingDoesNotValidate(draft: ProfileDraft, isCustomGoal: bool, customGoalText: string)
    requires AllWhitespace(draft.customAnswer)
    ensures !FormValid(draft, isCustomGoal, customGoalText)
  {
  }

  /**
   * Lengths are counted in code units: an answer of two astral characters such as
   * "💪💪" is four units long, so it passes the length rule on the key answer.
   */
  lemma AstralAnswerIsLongEnough(draft: ProfileDraft, isCustomGoal: bool, customGoalText: string)
    requires draft.customAnswer == "\U{1F4AA}\U{1F4AA}"
    ensures |draft.customAnswer| == 2
    ensures FormValid(draft, isCustomGoal, customGoalText) <==>
      GoalValid(draft, isCustomGoal, customGoalText) && draft.trainingType != "" &&
      draft.age.Truthy() && draft.age.value > 0
  {
    var a := draft.customAnswer;
    assert TrimStart(a) == a;
    assert TrimEnd(a) == a;
    assert Utf16Length(a[..1]) == 2;
  }

  /** `getPersonaName`: the display name of the persona. */
  function PersonaName(personaId: PersonaId): (r: string)
    ensures r != ""
  {
    match personaId
    case Sara => "Sara"
    case Todor => "Dr. Todor"
    case Raul => "Raúl"
  }

  /** Different personas have different display names. */
  lemma PersonaNamesDistinct(a: PersonaId, b: PersonaId)
    ensures PersonaName(a) == PersonaName(b) <==> a == b
  {
    assert |PersonaName(Sara)| == 4 && |PersonaName(Todor)| == 9 && |PersonaName(Raul)| == 4;
    assert PersonaName(Sara)[0] != PersonaName(Raul)[0];
  }

  class QuestionnaireForm {
    var profile: ProfileDraft
    var isCustomGoal: bool
    var customGoalText: string
    /** Declared by the component but never set to true. */
    var isCustomTraining: bool
    const preAnalysis: PreAnalysisResult
    const personaId: PersonaId

    /** What every handler keeps: the custom-training flag stays off. */
    predicate Valid()
      reads this
    {
      !isCustomTraining
    }

    /** The first render: an empty goal, the detected training type or weights, and the fixed defaults. */
    constructor (pre: PreAnalysisResult, persona: PersonaId)
      ensures preAnalysis == pre && personaId == persona
      ensures profile == ProfileDraft("", OrElse(pre.detectedTrainingType, Weights.Text()), Intermediate,
                                      "Masculino", Num(26), "", "")
      ensures !isCustomGoal && customGoalText == ""
      ensures Valid()
      ensures !IsFormValid()
    {
      preAnalysis := pre;
      personaId := persona;
      profile := ProfileDraft("", OrElse(pre.detectedTrainingType, Weights.Text()), Intermediate,
                              "Masculino", Num(26), "", "");
      isCustomGoal := false;
      customGoalText := "";
      isCustomTraining := false;
    }

    /** `isFormValid` on the current state. */
    predicate IsFormValid()
      reads this
    {
      FormValid(profile, isCustomGoal, customGoalText)
    }

    /** `showGoalBadge`: the goal shown is the one the pre-analysis guessed. */
    predicate ShowGoalBadge()
      reads this
    {
      !isCustomGoal && preAnalysis.detectedGoalGuess == Some(profile.goal)
    }

    /** `showTrainingBadge`: the training type shown is the one the pre-analysis detected. */
    predicate ShowTrainingBadge()
      reads this
    {
      !isCustomTraining && preAnalysis.detectedTrainingType == Some(profile.trainingType)
    }

    /** Because the custom-training flag is never set, the training badge is plain equality. */
    lemma TrainingBadgeIsEquality()
      requires Valid()
      ensures ShowTrainingBadge() <==> preAnalysis.detectedTrainingType == Some(profile.trainingType)
    {
    }

    /**
     * The seeding effect: the goal becomes the guessed goal or hypertrophy, the training
     * type the detected one or the previous value; nothing else changes.
     */
    method SeedFromPreAnalysis()
      modifies this
      requires Valid()
      ensures profile == old(profile).(
        goal := OrElse(preAnalysis.detectedGoalGuess, Hypertrophy.Text()),
        trainingType := OrElse(preAnalysis.detectedTrainingType, old(profile).trainingType))
      ensures isCustomGoal == old(isCustomGoal) && customGoalText == old(customGoalText)
      ensures Valid()
      ensures !isCustomGoal ==> GoalValid(profile, isCustomGoal, customGoalText)
      ensures !isCustomGoal && Truthy(preAnalysis.detectedGoalGuess) ==> ShowGoalBadge()
    {
      var goal := OrElse(preAnalysis.detectedGoalGuess, Hypertrophy.Text());
      var trainingType := OrElse(preAnalysis.detectedTrainingType, profile.trainingType);
      profile := profile.(goal := goal, trainingType := trainingType);
    }

    /** `handleChange`: only the named field takes the new value. */
    method HandleChange(change: FieldChange)
      modifies this
      requires Valid()
      ensures change.GoalChange? ==> profile == old(profile).(goal := change.goal)
      ensures change.TrainingTypeChange? ==> profile == old(profile).(trainingType := change.trainingType)
      ensures change.ExperienceChange? ==> profile == old(profile).(experience := change.experience)
      ensures change.GenderChange? ==> profile == old(profile).(gender := change.gender)
      ensures change.AgeChange? ==> profile == old(profile).(age := change.age)
      ensures change.InjuriesChange? ==> profile == old(profile).(injuries := change.injuries)
      ensures change.CustomAnswerChange? ==> profile == old(profile).(customAnswer := change.customAnswer)
      ensures isCustomGoal == old(isCustomGoal) && customGoalText == old(customGoalText)
      ensures Valid()
    {
      match change {
        case GoalChange(g) => profile := profile.(goal := g);
        case TrainingTypeChange(t) => profile := profile.(trainingType := t);
        case ExperienceChange(e) => profile := profile.(experience := e);
        case GenderChange(g) => profile := profile.(gender := g);
        case AgeChange(a) => profile := profile.(age := a);
        case InjuriesChange(i) => profile := profile.(injuries := i);
        case CustomAnswerChange(c) => profile := profile.(customAnswer := c);
      }
    }

    /**
     * `handleGoalSelectChange`: the custom option enters custom mode with an empty text
     * and leaves the stored goal alone; any other option leaves custom mode and becomes the goal.
     */
    method HandleGoalSelectChange(value: string)
      modifies this
      requires Valid()
      ensures value == OtherCustom ==> isCustomGoal && customGoalText == "" && profile == old(profile)
      ensures value != OtherCustom ==>
        !isCustomGoal && customGoalText == old(customGoalText) && profile == old(profile).(goal := value)
      ensures Valid()
      ensures value == OtherCustom ==> !IsFormValid()
    {
      if value == OtherCustom {
        isCustomGoal := true;
        customGoalText := "";
      } else {
        isCustomGoal := false;
        HandleChange(GoalChange(value));
      }
    }

    /** `handleTrainingSelectChange`: the selected type becomes the training type. */
    method HandleTrainingSelectChange(value: string)
      modifies this
      requires Valid()
      ensures profile == old(profile).(trainingType := value)
      ensures isCustomGoal == old(isCustomGoal) && customGoalText == old(customGoalText)
      ensures Valid()
      ensures ShowTrainingBadge() <==> preAnalysis.detectedTrainingType == Some(value)
    {
      HandleChange(TrainingTypeChange(value));
    }

    /** Typing in the custom-goal field. */
    method SetCustomGoalText(text: string)
      modifies this
      requires Valid()
      ensures customGoalText == text && profile == old(profile) && isCustomGoal == old(isCustomGoal)
      ensures Valid()
    {
      customGoalText := text;
    }

    /**
     * `handleSubmit`: the profile is handed on only when the form is valid, and then
     * with the custom text as its goal in custom mode.
     */
    method HandleSubmit() returns (submitted: Option<ProfileDraft>)
      ensures submitted.Some? <==> FormValid(profile, isCustomGoal, customGoalText)
      ensures submitted.Some? ==> submitted.value.goal == (if isCustomGoal then customGoalText else profile.goal)
      ensures submitted.Some? ==> submitted.value.(goal := profile.goal) == profile
    {
      var finalGoal := FinalGoal(profile, isCustomGoal, customGoalText);
      if FormValid(profile, isCustomGoal, customGoalText) {
        submitted := Some(profile.(goal := finalGoal));
      } else {
        submitted := None;
      }
    }
  }
}
