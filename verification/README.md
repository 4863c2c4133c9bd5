# FitSmart core, modelled in Dafny

FitSmart takes a workout routine or a training history and returns a critique in the
voice of one of three coach personas. The routine can be a Hevy, Strong or generic CSV
export, text, a link, an image, a PDF or a short video. This project models the part of
the program that decides what happens to that input:

- **CSV import** (`csv_parser.dfy`, after `services/csvParser.ts`):
  - quote-aware splitting of a line;
  - detection of the exporting app from the header row, and mapping of its columns;
  - grouping of the rows into one session per date, newest first;
  - the compact text digest of the five most recent sessions that is sent to the
    analysis service.
- **Response decoder and request builders** (`gemini_service.dfy`, after
  `services/geminiService.ts`):
  - the three-stage JSON recovery: direct parse, then parse with the code fences removed,
    then parse of the span from the first `{` to the last `}`;
  - the choice of persona instruction;
  - the request parts of the pre-analysis, deep-analysis and video stages, and how each
    stage treats a missing response.
- **Flow controller** (`app.dfy`, after `App.tsx`): the page's step machine as a class
  whose handlers update its fields. A `Consistent()` invariant is kept whenever a handler
  is fired from the component the page is showing.
- **Profile questionnaire** (`questionnaire.dfy`, after `components/Questionnaire.tsx`):
  the draft profile, the custom-goal mode, the validity gate on submission and the
  "detected" badges.
- **Upload panel** (`upload_section.dfy`, after `components/UploadSection.tsx`):
  - the size limits and the data-URL payload of picked files;
  - the imported history, which the panel keeps sorted newest first with one session
    per date;
  - the guards on the CSV-confirm and text-submit buttons.
- **Domain types** (`types.dfy`, after `types.ts`): the domain values and their display
  texts.
- **Support modules**:
  - `strings.dfy` holds the JavaScript string built-ins the core relies on (`trim`,
    `toLowerCase`, `includes`, `split`, `join`, `indexOf`, `parseFloat`, number
    rendering);
  - `grouping.dfy` holds the first-occurrence deduplication that stands for insertion
    order in a JavaScript object;
  - `sorting.dfy` holds the stable descending insertion sort that stands for
    `Array.prototype.sort`.

The model has three kinds of parameters:

- **Remote calls**: a stage's reply is a parameter (`response: Option<string>`), and so
  is the outcome of an awaited promise (`Outcome.Success(x)` / `Outcome.Failure`).
- **`JSON.parse`**: a function parameter `parse: string -> Option<J>`.
- **Files**: a picked file is given as its size and type, and its contents as a string.

Each handler runs as one atomic step.

## Model

| member | source | states |
|---|---|---|
| Types.GoalTextInjective | types.ts:2-9 | two goals share a display text exactly when they are the same goal |
| Types.TrainingTextInjective | types.ts:12-21 | two training types share a display text exactly when they are the same type |
| Types.ExperienceTextInjective | types.ts:24-28 | two experience levels share a display text exactly when they are the same level |
| Types.GoalAndTrainingTextsDisjoint | types.ts:2-21 | no goal text is also a training-type text |
| Types.PersonaKeyInjective | types.ts:31 | the persona ids `sara`, `todor`, `raul` identify the personas one-to-one |
| Types.InputKeyInjective | types.ts:133 | the six input-kind keys identify the input kinds one-to-one |
| CsvParser.ParseCSVLine | services/csvParser.ts:4-18 | the scanning loop returns exactly `CsvFields(line)`: the line cut at every comma outside quotes, each field with one leading and one trailing quote removed and then trimmed |
| CsvParser.FieldCount | services/csvParser.ts:8-16 | the raw fields are one more than the commas met outside quotes |
| CsvParser.CsvFieldCount | services/csvParser.ts:4-18 | a parsed line has one field per unquoted comma, plus one |
| CsvParser.RawFieldsJoin | services/csvParser.ts:8-16 | rejoining the raw fields with commas gives back the line, so no character is lost or duplicated |
| CsvParser.InsideQuotes | services/csvParser.ts:9-10 | after an opening quote, and until the next quote, the scanner is inside quotes |
| CsvParser.QuotedCommasAreNotBoundaries | services/csvParser.ts:9-14 | a comma between an opening quote and the next quote never ends a field (`a,"b,c",d` has three fields) |
| CsvParser.Unquote | services/csvParser.ts:12 | removing the surrounding quotes shortens a field by at most two characters |
| CsvParser.SplitLines | services/csvParser.ts:21 | splitting on line breaks gives one piece more than there are breaks, and no piece holds a break |
| CsvParser.NonBlank | services/csvParser.ts:21 | the kept lines are exactly the lines that are not blank once trimmed |
| CsvParser.Lines | services/csvParser.ts:21 | every line that is processed is non-blank and holds no line break |
| CsvParser.MapColumns | services/csvParser.ts:24-53 | every index found is inside the header; a title column is used exactly for the Hevy and Strong schemas; the generic schema has no RPE column; Hevy reads the weight from `weight_kg` and Strong from `weight` |
| CsvParser.DateKeyOf | services/csvParser.ts:64-66 | the date key is the prefix of the raw date before its first space, and is the whole date when there is no space |
| CsvParser.RowOf | services/csvParser.ts:64-87 | a row's date key is a space-free prefix of its date cell; the exercise is the exercise cell; the title defaults to `Entrenamiento`; RPE is present exactly when an RPE column exists; the set type is `normal` |
| CsvParser.AcceptedRows | services/csvParser.ts:60-62 | rows shorter than the header are skipped, so at most one row per data line is accepted |
| CsvParser.AcceptedRowsShape | services/csvParser.ts:60-88 | every accepted row has a space-free date key and a `normal` set; without title and RPE columns it has the default title and no RPE |
| CsvParser.Groups | services/csvParser.ts:57-88 | there is one session per distinct date key |
| CsvParser.SortNewestFirst | services/csvParser.ts:91-93 | the sort is a permutation of the sessions |
| CsvParser.ParseWorkoutCSV | services/csvParser.ts:20-94 | the grouping loop returns exactly `WorkoutHistory(csvText)` |
| CsvParser.GroupAndSort | services/csvParser.ts:57-93 | the row loop and the final sort give the sorted grouping of the accepted rows |
| CsvParser.GroupRows | services/csvParser.ts:57-88 | the loop's map and key order equal the grouping of the rows seen so far: a new date opens a session with that row's title, and a known date appends its set |
| CsvParser.HistoryCases | services/csvParser.ts:21-55 | fewer than two non-blank lines, or no date or exercise column, give the empty history; otherwise the history is the sorted grouping of the accepted rows |
| CsvParser.HistoryNewestFirst | services/csvParser.ts:91-93 | the imported sessions are ordered by date, newest first |
| CsvParser.HistorySameDayInFileOrder | services/csvParser.ts:91-93 | the sort is stable: sessions with the same date value keep the order in which their dates first appear in the file |
| CsvParser.GroupsUnique | services/csvParser.ts:73-79 | no two sessions share a date |
| CsvParser.GroupsMembers | services/csvParser.ts:73-87 | a session is produced exactly when its date occurs in the rows and it carries the first title and every set of that date, in file order |
| CsvParser.HistoryIsGrouping | services/csvParser.ts:20-94 | the history has one session per date; each session is the first title plus all sets of one date found in the file, and there is no other session |
| CsvParser.HistorySetCount | services/csvParser.ts:60-88 | the sessions hold as many sets as there are accepted rows, so no row is lost or counted twice |
| CsvParser.HistoryShape | services/csvParser.ts:64-87 | every imported session has a space-free date and only `normal` sets; a generic-schema import has the default title and no RPE |
| CsvParser.TimeOfParts | services/csvParser.ts:91-93 | a `Y-M-D` date of digit runs sorts by the day number built from its three parts when its month is 1–12 and its day 1–31, and as 0 otherwise |
| CsvParser.CalendarOrder | services/csvParser.ts:91-93 | valid dates compare by year, then month, then day, so `2024-10-01` sorts newer than `2024-9-30` |
| CsvParser.DayNumberOrder | services/csvParser.ts:91-93 | the day number orders dates lexicographically by year, month and day |
| CsvParser.Recent | services/csvParser.ts:98 | the digest takes a prefix of the sessions, all of them or exactly five |
| CsvParser.FormatWorkoutsForAI | services/csvParser.ts:96-117 | the output is exactly `WorkoutsDigest(sessions)`: the fixed heading followed by one block per recent session |
| CsvParser.FormatSession | services/csvParser.ts:103-113 | a session's block is its `FECHA … \| TÍTULO …` heading followed by one line per exercise |
| CsvParser.GroupSetTexts | services/csvParser.ts:105-109 | the exercise names are the distinct exercises in first-appearance order, and each maps to the texts of its own sets in order |
| CsvParser.SetTextMarksRpe | services/csvParser.ts:108 | a set's text carries `@` exactly when its RPE is present and truthy |
| CsvParser.SetTextStartsWithWeight | services/csvParser.ts:108 | reading a set's text back with `parseFloat` gives its weight |
| CsvParser.DigestIgnoresOlder | services/csvParser.ts:98 | sessions beyond the first five never change the digest |
| CsvParser.SessionBlockListsEverySet | services/csvParser.ts:105-113 | every set's exercise gets one line, no exercise gets two, and the lines list every set of the session exactly once |
| GeminiService.Candidate | services/geminiService.ts:18-21 | the fallback candidate is a substring of the reply that starts with `{` and ends with `}` |
| GeminiService.CandidateIffBracePair | services/geminiService.ts:18-20 | a candidate exists exactly when some `{` comes before some `}` |
| GeminiService.CandidateIsWidest | services/geminiService.ts:18-21 | the candidate starts at the first `{` and ends at the last `}` of the reply |
| GeminiService.ParseJSON | services/geminiService.ts:9-31 | decoding fails only with the fixed "No se pudo analizar…" message |
| GeminiService.ParseJSONStages | services/geminiService.ts:9-31 | the stages run in order and each runs only when the previous one failed; decoding fails exactly when all three fail or there is no brace pair |
| GeminiService.FencedAnswer | services/geminiService.ts:13-15 | a reply wrapped in a ```` ```json ```` fence decodes to its trimmed body |
| GeminiService.FencedCleaned | services/geminiService.ts:13 | removing the fence markers from a fenced reply leaves its trimmed body |
| GeminiService.CleanedPlain | services/geminiService.ts:13 | a reply without backticks and without surrounding blanks is left unchanged by cleaning |
| GeminiService.TildeFenceKept | services/geminiService.ts:13 | only backtick fences are removed; a `~~~` fence stays |
| GeminiService.ObjectInProse | services/geminiService.ts:17-22 | an object in prose without other braces is recovered by the third stage |
| GeminiService.ProseCandidate | services/geminiService.ts:18-21 | for such a reply the candidate is exactly the embedded object |
| GeminiService.StrayCloseBraceDefeatsFallback | services/geminiService.ts:18-29 | a stray `}` after a decodable object makes decoding fail whenever the parser rejects the widened span |
| GeminiService.StrayCloseBraceStages | services/geminiService.ts:13-21 | for such a reply the cleaning changes nothing, and the candidate is the whole reply |
| GeminiService.WholeCandidate | services/geminiService.ts:18-21 | a reply that starts with `{` and ends with `}` is its own candidate |
| GeminiService.GetPersonaInstruction | services/geminiService.ts:33-74 | a persona id gets that persona's block; any other id gets the neutral coach |
| GeminiService.EveryPersonaHasItsBlock | services/geminiService.ts:33-70 | every persona gets its own block, and different personas get different blocks |
| GeminiService.StageOutcome | services/geminiService.ts:130-131 | a missing or empty reply fails with the stage's own message; any other reply is decoded |
| GeminiService.PreAnalyzeRoutine | services/geminiService.ts:79-132 | the request pairs the persona's instruction with `CONTENIDO USUARIO:` plus the text for text kinds, or with the inline media and the visual prompt for an image or PDF with a MIME type; there are no parts otherwise; the result is the stage outcome |
| GeminiService.AnalyzeRoutine | services/geminiService.ts:137-241 | the request ends with the user-context part; it starts with the routine text for text kinds, or with the inline media when a MIME type is present; the result is the stage outcome |
| GeminiService.AnalyzeVideo | services/geminiService.ts:320-336 | the request is the inline video followed by the judging prompt; the result is the stage outcome |
| App.VideoMimeType | App.tsx:49 | the video stage gets the input's own MIME type when present, and `video/mp4` otherwise; never an empty type |
| App.StepLabel | App.tsx:139-145 | steps 1, 2, 3 and 10 read "Subir Rutina", "Elegir Auditor", "Diagnóstico" and "Video Análisis"; a step reads "Resultados" exactly when it is none of these |
| App.FlowController.constructor | App.tsx:12-26 | the page starts on step 1, on the apps tab, with no entity, no error and nothing loading, in a consistent state |
| App.FlowController.HandleRoutineUpload | App.tsx:29-68 | any non-video input is stored and leads to step 2; a video is analysed with its content and type; success shows step 10 with the result (possibly `null`) and the preview URL; failure returns to step 1 on the video tab with the error; consistency is kept and the page is never left blank |
| App.FlowController.HandlePersonaSelect | App.tsx:71-89 | without a routine nothing happens; otherwise the persona is recorded and the pre-analysis leads to step 3 with its result or back to step 1 with the error; consistency is kept; the page is left blank exactly when the pre-analysis resolves to `null` (App.tsx:229) |
| App.FlowController.HandleProfileComplete | App.tsx:92-113 | without a persona nothing happens; otherwise the profile is stored with the selected persona; the deep analysis leads to step 4 with its result or leaves the step with the error; consistency is kept; fired from the questionnaire with a routine stored, the page is left blank exactly when the analysis resolves to `null` (App.tsx:237) |
| App.FlowController.HandleReset | App.tsx:115-125 | the reset always leads to the same state: step 1 on the apps tab, every entity cleared, no error |
| App.FlowController.HandleVideoReset | App.tsx:128-136 | the video reset returns to step 1 on the video tab with the routine, the video result and the error cleared, and keeps the persona, pre-analysis, profile and analysis |
| Questionnaire.ValidSubmissionIsFilled | components/Questionnaire.tsx:123-131 | a valid form has a non-empty goal, a non-blank custom goal in custom mode, a non-empty training type, a non-blank answer and an age of at least 1 |
| Questionnaire.PaddingDoesNotValidate | components/Questionnaire.tsx:128 | an answer made only of whitespace never makes the form valid |
| Questionnaire.AstralAnswerIsLongEnough | components/Questionnaire.tsx:128 | lengths are UTF-16 code units: a two-character answer "💪💪" is four units long and passes the length rule, so the form is then valid exactly when its other conditions hold |
| Strings.Utf16Length | components/Questionnaire.tsx:124-128 | the code-unit length of a text lies between its character count and twice that |
| Strings.Utf16LengthOfBasic | components/Questionnaire.tsx:124-128 | the code-unit length equals the character count exactly when no character lies outside the basic plane |
| Questionnaire.PersonaName | components/Questionnaire.tsx:133-137 | every persona has a non-empty display name |
| Questionnaire.PersonaNamesDistinct | components/Questionnaire.tsx:133-137 | different personas have different display names |
| Questionnaire.QuestionnaireForm.constructor | components/Questionnaire.tsx:64-78 | the form starts with an empty goal, the detected training type when it is a non-empty text or weights otherwise, intermediate level, `Masculino`, age 26, no answer and no custom goal, and is not yet valid |
| Questionnaire.QuestionnaireForm.TrainingBadgeIsEquality | components/Questionnaire.tsx:141 | while custom training is off, the training badge shows exactly when the selected type is the detected one |
| Questionnaire.QuestionnaireForm.SeedFromPreAnalysis | components/Questionnaire.tsx:81-90 | the goal becomes the guessed goal when it is a non-empty text and hypertrophy otherwise, and the training type the detected one or the previous one; nothing else changes; outside custom mode the goal is then valid, and a guessed goal shows its badge |
| Questionnaire.QuestionnaireForm.HandleChange | components/Questionnaire.tsx:101-103 | exactly the named field takes the new value |
| Questionnaire.QuestionnaireForm.HandleGoalSelectChange | components/Questionnaire.tsx:106-115 | the custom option enters custom mode with an empty text, keeps the stored goal and makes the form invalid; any other option leaves custom mode and becomes the goal |
| Questionnaire.QuestionnaireForm.HandleTrainingSelectChange | components/Questionnaire.tsx:118-121 | the selected text, which may be the detected value outside the enumeration, becomes the training type, and its badge shows exactly when it is the detected value |
| Questionnaire.QuestionnaireForm.SetCustomGoalText | components/Questionnaire.tsx:249 | typing changes the custom goal text only |
| Questionnaire.QuestionnaireForm.HandleSubmit | components/Questionnaire.tsx:92-99 | a profile is handed on exactly when the form is valid; its goal is the custom text in custom mode and the selected goal otherwise; every other field is the form's |
| UploadSection.DataUrlPayload | components/UploadSection.tsx:44 | the payload is the text after the first comma, up to the next comma; without a comma it is empty |
| UploadSection.PayloadOfDataUrl | components/UploadSection.tsx:44 | a data URL `header,payload` yields its base64 payload |
| UploadSection.DocumentKind | components/UploadSection.tsx:46 | a document is a PDF exactly when its type mentions `pdf`, and an image otherwise |
| UploadSection.VideoType | components/UploadSection.tsx:70 | a video keeps its own type, or gets `video/mp4` when its type is empty |
| UploadSection.HandleFileChange | components/UploadSection.tsx:32-52 | without a file nothing happens; a file over 10 MiB is refused with its alert; any other file is handed on with its kind, type and payload |
| UploadSection.HandleVideoChange | components/UploadSection.tsx:54-74 | without a file nothing happens; a video over 20 MiB is refused with its alert; any other video is handed on with its type and payload |
| UploadSection.UploadPanel.constructor | components/UploadSection.tsx:19-22 | the panel opens on the requested tab with no text and no history |
| UploadSection.UploadPanel.SyncInitialTab | components/UploadSection.tsx:28-30 | a new initial tab becomes the active tab |
| UploadSection.UploadPanel.SelectTab | components/UploadSection.tsx:158-162 | clicking a tab activates it and clears the text and the history |
| UploadSection.UploadPanel.SetTextContent | components/UploadSection.tsx:365 | typing changes the text only |
| UploadSection.UploadPanel.ClearHistory | components/UploadSection.tsx:213 | the change-file button drops the imported history only |
| UploadSection.UploadPanel.HandleCSVChange | components/UploadSection.tsx:76-87 | the imported file's history replaces the previous one, and the panel stays sorted newest first with one session per date |
| UploadSection.UploadPanel.HandleCSVConfirm | components/UploadSection.tsx:89-96 | an input is handed on exactly when a history is loaded, and it is a CSV input whose content is the digest of that history |
| UploadSection.UploadPanel.HandleTextSubmit | components/UploadSection.tsx:98-104 | an input is handed on exactly when the text is not blank; it carries the untrimmed text, as a link on the link tab and as plain text otherwise |

## Left out

- Prompt wording: the system instructions are abstract values, recording only the
  persona block and, for the deep analysis, the profile they embed. The persona's tone
  text is represented by the persona itself.
- Model names, token limits and other request configuration of the remote calls are not
  modelled, because they do not affect the behaviour modelled here.
- `JSON.parse` is a parameter, so the JSON grammar is not modelled. A stage result is
  either `null` (`None`) or a record of its stage's type. Other values that
  `JSON.parse` can produce are not modelled: numbers, strings, arrays, and objects with
  missing or mistyped fields. The source casts them unchecked, and the only
  free-text fields modelled are the detected training type and goal.
- `FileReader`, `atob`, `Blob`, `URL.createObjectURL` and `alert` are not modelled:
  - file contents and the preview URL are parameters;
  - an alert is a returned message;
  - `console.error` logging is left out.
- Concurrency is not modelled: each handler is one atomic step, and the awaited result
  is a parameter. The source has no guard against a reply that arrives after a reset,
  so interleavings are not modelled. The `isLoading` flag that disables buttons is only
  reset at the end of each handler.
- `new Date(key).getTime()`:
  - it is modelled as a day number read from a `Y-M-D` key with a month of 1–12 and a
    day of 1–31;
  - an unreadable key sorts as 0, where JavaScript gives NaN and the comparator's
    result is then engine-dependent;
  - time zones, other date formats and day-of-month validity are not modelled.
- CsvParser.SortNewestFirst:
  - it is modelled as a stable insertion sort;
  - JavaScript's `Object.values` yields integer-like keys first, in numeric order, and
    that is not modelled: a date key is never integer-like unless it is all digits.
- Strings.ParseFloat:
  - it reads leading whitespace and then leading decimal digits only;
  - signs, fractions and exponents are not modelled, so weights, reps and RPE are whole
    numbers;
  - number rendering is decimal.
- Strings.ToLower: lowers ASCII letters only.
- Strings.Trim: treats ASCII whitespace, the no-break space and the byte-order mark
  as blank, and no other Unicode space.
- UploadSection.DataUrlPayload: when the URL has no comma, the source gets
  `undefined`; the model uses the empty text.
- Questionnaire.QuestionnaireForm.HandleTrainingSelectChange: accepts any text, while
  the select offers only the detected value and the `TrainingType` texts
  (components/Questionnaire.tsx:270-276). The experience select is modelled as offering
  only the `ExperienceLevel` values, which is what it renders.
- CsvParser.GroupSetTexts: lists exercises in first-appearance order. JavaScript's
  `Object.entries` lists integer-like names such as "10" first, in numeric order, and
  that is not modelled.
- CsvParser.FormatWorkoutsForAI: an exercise named after an `Object.prototype` member,
  such as `constructor` or `toString`, makes the source throw a `TypeError` at
  `.push`. That case is not modelled, and the model returns a digest. Integer-like
  exercise names are listed in first-appearance order (see `CsvParser.GroupSetTexts`).
- CsvParser.ParseWorkoutCSV: a date key named after an `Object.prototype` member makes
  the source throw a `TypeError` at `.sets.push`. That case is not modelled, and the
  model returns a history.
- The optional `preAnalysis` argument of the deep-analysis call is not modelled, because
  the source never reads it.
- `services/pdfService.ts` and the presentation components are not part of this model.
  These are `AnalysisResults.tsx`, `VideoAnalyzer.tsx`, `PersonaSelector.tsx` and
  `StepIndicator.tsx`.

Where the stated intent of the system and its code differ, the model follows the code:

- The decoder is described as never failing on a reply that holds a valid JSON object.
  The code can fail on such a reply: its third stage takes the span from the first `{`
  to the last `}`, and a stray brace widens that span
  (`GeminiService.StrayCloseBraceDefeatsFallback`).
- An unmappable CSV is described as an error shown to the user. The code silently gives
  an empty history, which leaves the confirm button inactive
  (`CsvParser.HistoryCases`).
- Reset is described as clearing every entity. The video reset keeps the persona,
  pre-analysis, profile and analysis (`App.FlowController.HandleVideoReset`).
- The stated intent includes a busy flag and a guard against late replies. The code has
  neither.
