/**
 * The analysis gateway (services/geminiService.ts): the lenient decoder of the
 * service's JSON answers, the persona lookup, and the request parts each of the
 * three stages (pre-analysis, deep analysis, video judging) sends.
 *
 * The remote call is not modelled: each stage receives the answer text the
 * service returned as an `Option<string>`, and `JSON.parse` is a parameter
 * `parse` that either yields a decoded value or fails.
 */
module GeminiService {
  import opened Wrappers
  import opened Types
  import opened Strings

  // ---------------------------------------------------------------------------
  // The lenient decoder
  // ---------------------------------------------------------------------------

  /** The message thrown when no decoding stage succeeds. */
  const ParseError := "No se pudo analizar la respuesta de la IA. El formato recibido no es válido."

  const JsonFence := "```json"
  const Fence := "```"

  /** The second stage's text: every "```json" removed, then every "```", then trimmed. */
  function Cleaned(text: string): string {
    Trim(RemoveAll(RemoveAll(text, JsonFence), Fence))
  }

  /**
   * The third stage's text: from the first `{` to the last `}` of the original text,
   * both included, when both exist and the `}` comes after the `{`.
   */
  function Candidate(text: string): (r: Option<string>)
    ensures r.Some? ==> |r.value| >= 2 && r.value[0] == '{' && r.value[|r.value| - 1] == '}'
    ensures r.Some? ==> Contains(text, r.value)
  {
    var first := FirstIndex(text, '{');
    var last := LastIndex(text, '}');
    if first.Some? && last.Some? && last.value > first.value then
      ContainsAt(text, text[first.value..last.value + 1], first.value);
      Some(text[first.value..last.value + 1])
    else None
  }

  /** Some `{` comes before some `}` in `text`. */
  predicate HasBracePair(text: string) {
    exists i, j :: 0 <= i < j < |text| && text[i] == '{' && text[j] == '}'
  }

  /** The third stage has a candidate exactly when an opening brace precedes a closing one. */
  lemma CandidateIffBracePair(text: string)
    ensures Candidate(text).Some? <==> HasBracePair(text)
  {
    var first := FirstIndex(text, '{');
    var last := LastIndex(text, '}');
    if HasBracePair(text) {
      var i, j :| 0 <= i < j < |text| && text[i] == '{' && text[j] == '}';
      assert first.Some? && last.Some?;
    }
  }

  /** The candidate is the widest span: no `{` before it and no `}` after it. */
  lemma CandidateIsWidest(text: string)
    requires Candidate(text).Some?
    ensures exists k :: (0 <= k && k + |Candidate(text).value| <= |text| &&
      text[k..k + |Candidate(text).value|] == Candidate(text).value &&
      '{' !in text[..k] && '}' !in text[k + |Candidate(text).value|..])
  {
    var first := FirstIndex(text, '{').value;
    var last := LastIndex(text, '}').value;
    assert text[first..first + |Candidate(text).value|] == Candidate(text).value;
  }

  /** `parseJSON`: a direct parse, then the fence-stripped text, then the brace span; else the fixed error. */
  function ParseJSON<J>(text: string, parse: string -> Option<J>): (r: Result<J, string>)
    ensures r.Err? ==> r.error == ParseError
  {
    match parse(text)
    case Some(v) => Ok(v)
    case None =>
      match parse(Cleaned(text))
      case Some(v) => Ok(v)
      case None =>
        match Candidate(text)
        case None => Err(ParseError)
        case Some(c) =>
          match parse(c)
          case Some(v) => Ok(v)
          case None => Err(ParseError)
  }

  /**
   * What `parseJSON` returns is always what one of the three stages decoded, in
   * stage order, and it fails only when all three fail: there is no default object.
   */
  lemma ParseJSONStages<J>(text: string, parse: string -> Option<J>)
    ensures parse(text).Some? ==> ParseJSON(text, parse) == Ok(parse(text).value)
    ensures parse(text).None? && parse(Cleaned(text)).Some? ==>
      ParseJSON(text, parse) == Ok(parse(Cleaned(text)).value)
    ensures parse(text).None? && parse(Cleaned(text)).None? && Candidate(text).Some? ==>
      ParseJSON(text, parse) == (match parse(Candidate(text).value)
        case Some(v) => Ok(v)
        case None => Err(ParseError))
    ensures ParseJSON(text, parse).Err? <==>
      parse(text).None? && parse(Cleaned(text)).None? &&
      (Candidate(text).None? || parse(Candidate(text).value).None?)
  {
  }

  /** An answer wrapped in a "```json … ```" fence is decoded from its trimmed body. */
  lemma FencedAnswer<J>(body: string, parse: string -> Option<J>)
    requires '`' !in body
    requires parse(JsonFence + body + Fence).None?
    requires parse(Trim(body)).Some?
    ensures ParseJSON(JsonFence + body + Fence, parse) == Ok(parse(Trim(body)).value)
  {
    FencedCleaned(body);
  }

  /** Stripping a "```json … ```" fence leaves the trimmed body. */
  lemma FencedCleaned(body: string)
    requires '`' !in body
    ensures Cleaned(JsonFence + body + Fence) == Trim(body)
  {
    var text := JsonFence + body + Fence;
    assert text[..|JsonFence|] == JsonFence;
    assert text[|JsonFence|..] == body + Fence;
    RemoveAllPrefix(body, Fence, JsonFence);
    assert RemoveAll(Fence, JsonFence) == Fence;
    RemoveAllPrefix(body, Fence, Fence);
    assert Fence[..|Fence|] == Fence && Fence[|Fence|..] == [];
    assert RemoveAll(Fence, Fence) == RemoveAll([], Fence) == [];
    assert body + [] == body;
  }

  /** A text without back-ticks and without surrounding whitespace reaches the second stage unchanged. */
  lemma CleanedPlain(text: string)
    requires '`' !in text
    requires text != [] && !IsWhitespace(text[0]) && !IsWhitespace(text[|text| - 1])
    ensures Cleaned(text) == text
  {
    NotContainsWithoutFirstChar(text, JsonFence);
    RemoveAllAbsent(text, JsonFence);
    NotContainsWithoutFirstChar(text, Fence);
    RemoveAllAbsent(text, Fence);
  }

  /** Only back-tick fences are stripped: a "~~~" fence reaches the second stage untouched. */
  lemma TildeFenceKept(body: string)
    requires '`' !in body
    ensures Cleaned("~~~" + body + "~~~") == "~~~" + body + "~~~"
  {
    var text := "~~~" + body + "~~~";
    assert text[0] == '~' && text[|text| - 1] == '~';
    assert '`' !in text by {
      forall i | 0 <= i < |text| ensures text[i] != '`' {
        if 3 <= i < 3 + |body| { assert text[i] == body[i - 3]; }
      }
    }
    CleanedPlain(text);
  }

  /** An object embedded in prose, with no other braces around it, is recovered by the third stage. */
  lemma ObjectInProse<J>(before: string, obj: string, after: string, parse: string -> Option<J>)
    requires '{' !in before && '}' !in after
    requires |obj| >= 2 && obj[0] == '{' && obj[|obj| - 1] == '}'
    requires parse(before + obj + after).None? && parse(Cleaned(before + obj + after)).None?
    requires parse(obj).Some?
    ensures ParseJSON(before + obj + after, parse) == Ok(parse(obj).value)
  {
    ProseCandidate(before, obj, after);
    ParseJSONStages(before + obj + after, parse);
  }

  /** The brace span of such a text is exactly the embedded object. */
  lemma ProseCandidate(before: string, obj: string, after: string)
    requires '{' !in before && '}' !in after
    requires |obj| >= 2 && obj[0] == '{' && obj[|obj| - 1] == '}'
    ensures Candidate(before + obj + after) == Some(obj)
  {
    var text := before + obj + after;
    assert text == before + (obj + after);
    FirstIndexAfter(before, '{', obj + after);
    assert text == (before + obj) + after;
    LastIndexBefore(before + obj, '}', after);
    assert text[|before|..|before| + |obj|] == obj;
  }

  /**
   * The third stage takes the widest brace span, so a stray `}` after a decodable
   * object makes decoding fail whenever the parser rejects the object with the stray
   * brace, although the object itself is in the text.
   */
  lemma StrayCloseBraceDefeatsFallback<J>(obj: string, parse: string -> Option<J>)
    requires |obj| >= 2 && obj[0] == '{' && obj[|obj| - 1] == '}' && '`' !in obj
    requires parse(obj).Some? && parse(obj + " }").None?
    ensures Contains(obj + " }", obj)
    ensures ParseJSON(obj + " }", parse) == Err(ParseError)
  {
    StrayCloseBraceStages(obj);
    ParseJSONStages(obj + " }", parse);
    ContainsAt(obj + " }", obj, 0);
  }

  /** With a stray `}` appended, all three stages see the same text. */
  lemma StrayCloseBraceStages(obj: string)
    requires |obj| >= 2 && obj[0] == '{' && obj[|obj| - 1] == '}' && '`' !in obj
    ensures Cleaned(obj + " }") == obj + " }"
    ensures Candidate(obj + " }") == Some(obj + " }")
  {
    var text := obj + " }";
    NoBackTickAdded(obj, " }");
    CleanedPlain(text);
    WholeCandidate(text);
  }

  /** A text that opens with `{` and closes with `}` is its own brace span. */
  lemma WholeCandidate(text: string)
    requires |text| >= 2 && text[0] == '{' && text[|text| - 1] == '}'
    ensures Candidate(text) == Some(text)
  {
    assert text[0..|text|] == text;
  }

  lemma NoBackTickAdded(a: string, b: string)
    requires '`' !in a && '`' !in b
    ensures '`' !in a + b
  {
  }

  // ---------------------------------------------------------------------------
  // Personas
  // ---------------------------------------------------------------------------

  /** The system-prompt block of a persona; `NeutralCoach` is the fallback sentence. */
  datatype PersonaInstruction = PersonaBlock(persona: PersonaId) | NeutralCoach

  /** The text of the fallback block. */
  const NeutralCoachText := "Eres un entrenador profesional objetivo."

  /** `getPersonaInstruction`: the block of the persona whose identifier is `id`, or the neutral coach. */
  function GetPersonaInstruction(id: string): (r: PersonaInstruction)
    ensures r.PersonaBlock? ==> r.persona.Key() == id
    ensures r.NeutralCoach? ==> id != Sara.Key() && id != Todor.Key() && id != Raul.Key()
  {
    if id == "sara" then PersonaBlock(Sara)
    else if id == "todor" then PersonaBlock(Todor)
    else if id == "raul" then PersonaBlock(Raul)
    else NeutralCoach
  }

  /** Every persona gets its own block, and different personas get different blocks. */
  lemma EveryPersonaHasItsBlock(p: PersonaId, q: PersonaId)
    ensures GetPersonaInstruction(p.Key()) == PersonaBlock(p)
    ensures GetPersonaInstruction(p.Key()) == GetPersonaInstruction(q.Key()) <==> p == q
  {
    match p
    case Sara =>
    case Todor => assert "todor" != "sara";
    case Raul => assert "raul" != "sara" && "raul" != "todor";
  }

  // ---------------------------------------------------------------------------
  // Requests
  // ---------------------------------------------------------------------------

  /** One element of the `parts` array sent to the service. */
  datatype Part = TextPart(text: string) | InlineData(mimeType: string, data: string)

  /**
   * The system instruction of a request. Its wording is not modelled; what it is
   * built from is: the persona block and, for the deep analysis, the profile.
   */
  datatype SystemInstruction =
    | PreAnalysisInstruction(persona: PersonaInstruction)
    | DeepAnalysisInstruction(persona: PersonaInstruction, profile: UserProfile)
    | VideoJudgeInstruction

  datatype Request = Request(system: SystemInstruction, parts: seq<Part>)

  const UserContentLabel := "CONTENIDO USUARIO:\n"
  const VisualPrompt := "Analiza el contenido visual."
  const VideoPrompt :=
    "Analiza el video aplicando los criterios de la base de conocimientos técnica para el ángulo detectado. Cuenta solo repeticiones válidas."

  const NoPreAnalysisResponse := "No pre-analysis response"
  const NoAnalysisResponse := "No analysis response"
  const NoVideoResponse := "No video analysis response"

  /** A stage's decoding step: an absent or empty answer fails with the stage's own message. */
  function StageOutcome<J>(response: Option<string>, missing: string, parse: string -> Option<J>): (r: Result<J, string>)
    ensures !Truthy(response) ==> r == Err(missing)
    ensures Truthy(response) ==> r == ParseJSON(response.value, parse)
  {
    if !Truthy(response) then Err(missing) else ParseJSON(response.value, parse)
  }

  /** The profile summary appended as the last part of the deep-analysis request. */
  function UserContext(profile: UserProfile): string {
    "\n    DATOS USUARIO:\n    Objetivo: " + profile.goal +
    "\n    Nivel: " + profile.experience.Text() +
    "\n    Tipo: " + profile.trainingType +
    "\n    Respuesta a pregunta clave: " + profile.customAnswer.GetOr("undefined") +
    "\n    Lesiones: " + profile.injuries + "\n  "
  }

  /**
   * `preAnalyzeRoutine`: a text, url or csv input is sent as one labelled text part;
   * an image or pdf with a MIME type as its inline data followed by the fixed visual
   * prompt; anything else with no parts at all.
   */
  method PreAnalyzeRoutine<J>(routine: RoutineInput, personaId: string, response: Option<string>,
                              parse: string -> Option<J>)
    returns (request: Request, result: Result<J, string>)
    ensures request.system == PreAnalysisInstruction(GetPersonaInstruction(personaId))
    ensures routine.kind.IsTextKind() ==>
      |request.parts| == 1 && request.parts[0].TextPart? &&
      StartsWith(request.parts[0].text, UserContentLabel) &&
      request.parts[0].text[|UserContentLabel|..] == routine.content
    ensures (routine.kind == ImageInput || routine.kind == PdfInput) && Truthy(routine.mimeType) ==>
      request.parts == [InlineData(routine.mimeType.value, routine.content), TextPart(VisualPrompt)]
    ensures request.parts == [] <==>
      !routine.kind.IsTextKind() &&
      !((routine.kind == ImageInput || routine.kind == PdfInput) && Truthy(routine.mimeType))
    ensures result == StageOutcome(response, NoPreAnalysisResponse, parse)
  {
    var parts: seq<Part> := [];
    if routine.kind.IsTextKind() {
      parts := parts + [TextPart(UserContentLabel + routine.content)];
      assert parts[0].text[..|UserContentLabel|] == UserContentLabel;
    } else if (routine.kind == ImageInput || routine.kind == PdfInput) && Truthy(routine.mimeType) {
      parts := parts + [InlineData(routine.mimeType.value, routine.content)];
      parts := parts + [TextPart(VisualPrompt)];
    }
    request := Request(PreAnalysisInstruction(GetPersonaInstruction(personaId)), parts);
    if !Truthy(response) {
      result := Err(NoPreAnalysisResponse);
    } else {
      result := ParseJSON(response.value, parse);
    }
  }

  /**
   * `analyzeRoutineWithGemini`: a text kind is sent as its raw content, any other kind
   * with a MIME type as inline data, and the user-context text is always the last part.
   */
  method AnalyzeRoutine<J>(profile: UserProfile, routine: RoutineInput, response: Option<string>,
                           parse: string -> Option<J>)
    returns (request: Request, result: Result<J, string>)
    ensures request.system == DeepAnalysisInstruction(GetPersonaInstruction(profile.persona.Key()), profile)
    ensures 1 <= |request.parts| <= 2
    ensures request.parts[|request.parts| - 1] == TextPart(UserContext(profile))
    ensures routine.kind.IsTextKind() ==> request.parts[0] == TextPart(routine.content)
    ensures !routine.kind.IsTextKind() && Truthy(routine.mimeType) ==>
      request.parts[0] == InlineData(routine.mimeType.value, routine.content)
    ensures |request.parts| == 1 <==> !routine.kind.IsTextKind() && !Truthy(routine.mimeType)
    ensures result == StageOutcome(response, NoAnalysisResponse, parse)
  {
    var parts: seq<Part> := [];
    if routine.kind.IsTextKind() {
      parts := parts + [TextPart(routine.content)];
    } else if Truthy(routine.mimeType) {
      parts := parts + [InlineData(routine.mimeType.value, routine.content)];
    }
    parts := parts + [TextPart(UserContext(profile))];
    request := Request(DeepAnalysisInstruction(GetPersonaInstruction(profile.persona.Key()), profile), parts);
    if !Truthy(response) {
      result := Err(NoAnalysisResponse);
    } else {
      result := ParseJSON(response.value, parse);
    }
  }

  /** `analyzeVideoWithGemini`: the clip as inline data, then the fixed judging prompt. */
  method AnalyzeVideo<J>(videoBase64: string, mimeType: string, response: Option<string>,
                         parse: string -> Option<J>)
    returns (request: Request, result: Result<J, string>)
    ensures request.system == VideoJudgeInstruction
    ensures request.parts == [InlineData(mimeType, videoBase64), TextPart(VideoPrompt)]
    ensures result == StageOutcome(response, NoVideoResponse, parse)
  {
    var parts := [InlineData(mimeType, videoBase64), TextPart(VideoPrompt)];
    request := Request(VideoJudgeInstruction, parts);
    if !Truthy(response) {
      result := Err(NoVideoResponse);
    } else {
      result := ParseJSON(response.value, parse);
    }
  }
}
