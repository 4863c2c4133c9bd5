/**
 * The upload panel (components/UploadSection.tsx): the tabs, the typed text,
 * the imported workout history, and the guards that decide whether a user
 * action hands a `RoutineInput` to the flow controller.
 *
 * A handler that may hand an input on returns it as `emitted` (`None` when
 * the callback is not called); a rejected file returns the alert it shows.
 * The file reader is not modelled: the picked file is described by its size
 * and type, and its contents arrive as a parameter.
 */
module UploadSection {
  import opened Wrappers
  import opened Types
  import opened Strings
  import opened Sorting
  import opened CsvParser

  /** The picked file as the handlers see it. */
  datatype FileInfo = FileInfo(size: nat, fileType: string)

  const MiB := 1024 * 1024
  /** The size cap of an image or PDF. */
  const DocumentLimit := 10 * MiB
  /** The size cap of a video. */
  const VideoLimit := 20 * MiB

  const DocumentTooLarge := "Máximo 10MB para imágenes/PDF."
  const VideoTooLarge := "El video debe pesar menos de 20MB para el análisis."

  /**
   * `result.split(',')[1]`: the piece after the first comma of a data URL. A URL
   * without a comma has no such piece (the source gets `undefined`; the model uses
   * the empty text).
   */
  function DataUrlPayload(dataUrl: string): (r: string)
    ensures ',' !in dataUrl ==> r == ""
    ensures ',' !in r
  {
    var pieces := SplitOn(dataUrl, ',');
    if |pieces| < 2 then "" else pieces[1]
  }

  /** The payload of a data URL `header,payload` is the base64 text after the header. */
  lemma PayloadOfDataUrl(header: string, payload: string)
    requires ',' !in header && ',' !in payload
    ensures DataUrlPayload(header + "," + payload) == payload
  {
    SplitOnAfter(header, ',', payload);
    SplitOnAbsent(payload, ',');
  }

  /** The kind of an accepted document: a PDF exactly when its type mentions "pdf". */
  function DocumentKind(fileType: string): (r: InputType)
    ensures r == PdfInput || r == ImageInput
    ensures r == PdfInput <==> Contains(fileType, "pdf")
  {
    if Contains(fileType, "pdf") then PdfInput else ImageInput
  }

  /** The MIME type recorded for an accepted video: its own type, or "video/mp4" when that is empty. */
  function VideoType(fileType: string): (r: string)
    ensures r != ""
    ensures fileType != "" ==> r == fileType
  {
    if fileType != "" then fileType else "video/mp4"
  }

  /**
   * `handleFileChange`: no file does nothing; a file over 10 MiB is refused with an
   * alert; any other file is handed on as a PDF or an image with its type and payload.
   */
  method HandleFileChange(file: Option<FileInfo>, dataUrl: string)
    returns (emitted: Option<RoutineInput>, alert: Option<string>)
    ensures file.None? ==> emitted == None && alert == None
    ensures file.Some? && file.value.size > DocumentLimit ==> emitted == None && alert == Some(DocumentTooLarge)
    ensures emitted.Some? <==> file.Some? && file.value.size <= DocumentLimit
    ensures emitted.Some? ==>
      && alert == None
      && emitted.value.kind == DocumentKind(file.value.fileType)
      && emitted.value.mimeType == Some(file.value.fileType)
      && emitted.value.content == DataUrlPayload(dataUrl)
  {
    emitted, alert := None, None;
    if file.None? {
      return;
    }
    if file.value.size > DocumentLimit {
      alert := Some(DocumentTooLarge);
      return;
    }
    var base64 := DataUrlPayload(dataUrl);
    emitted := Some(RoutineInput(DocumentKind(file.value.fileType), base64, Some(file.value.fileType)));
  }

  /**
   * `handleVideoChange`: no file does nothing; a video over 20 MiB is refused with an
   * alert; any other video is handed on with its type, or "video/mp4" when it has none.
   */
  method HandleVideoChange(file: Option<FileInfo>, dataUrl: string)
    returns (emitted: Option<RoutineInput>, alert: Option<string>)
    ensures file.None? ==> emitted == None && alert == None
    ensures file.Some? && file.value.size > VideoLimit ==> emitted == None && alert == Some(VideoTooLarge)
    ensures emitted.Some? <==> file.Some? && file.value.size <= VideoLimit
    ensures emitted.Some? ==>
      && alert == None
      && emitted.value.kind == VideoInput
      && emitted.value.mimeType == Some(VideoType(file.value.fileType))
      && emitted.value.content == DataUrlPayload(dataUrl)
  {
    emitted, alert := None, None;
    if file.None? {
      return;
    }
    if file.value.size > VideoLimit {
      alert := Some(VideoTooLarge);
      return;
    }
    var base64 := DataUrlPayload(dataUrl);
    emitted := Some(RoutineInput(VideoInput, base64, Some(VideoType(file.value.fileType))));
  }

  class UploadPanel {
    var activeTab: UploadTab
    var textContent: string
    var parsedHistory: seq<WorkoutSession>
    var initialTab: UploadTab

    /**
     * The imported history is always an import result: newest first, one session per
     * date (it is only ever replaced by `parseWorkoutCSV`'s result or emptied).
     */
    predicate Valid()
      reads this
    {
      Descending(parsedHistory, SessionTime) && Unique(parsedHistory, SessionDate)
    }

    /** The first render: the tab the page asked for, no text, no history. */
    constructor (tab: UploadTab)
      ensures activeTab == tab && initialTab == tab && textContent == "" && parsedHistory == []
      ensures Valid()
    {
      activeTab := tab;
      initialTab := tab;
      textContent := "";
      parsedHistory := [];
    }

    /** The sync effect: a new `initialTab` prop becomes the active tab. */
    method SyncInitialTab(tab: UploadTab)
      modifies this
      requires Valid()
      ensures initialTab == tab && activeTab == tab
      ensures textContent == old(textContent) && parsedHistory == old(parsedHistory)
      ensures Valid()
    {
      initialTab := tab;
      activeTab := tab;
    }

    /** Clicking a tab: it becomes active, and the typed text and the imported history are cleared. */
    method SelectTab(tab: UploadTab)
      modifies this
      requires Valid()
      ensures activeTab == tab && textContent == "" && parsedHistory == []
      ensures initialTab == old(initialTab)
      ensures Valid()
    {
      activeTab := tab;
      textContent := "";
      parsedHistory := [];
    }

    /** Typing in the text area. */
    method SetTextContent(text: string)
      modifies this
      requires Valid()
      ensures textContent == text
      ensures activeTab == old(activeTab) && parsedHistory == old(parsedHistory) && initialTab == old(initialTab)
      ensures Valid()
    {
      textContent := text;
    }

    /** The "change file" button of the history preview: the imported history is dropped. */
    method ClearHistory()
      modifies this
      requires Valid()
      ensures parsedHistory == []
      ensures activeTab == old(activeTab) && textContent == old(textContent) && initialTab == old(initialTab)
      ensures Valid()
    {
      parsedHistory := [];
    }

    /** `handleCSVChange`: the picked file's text is imported and replaces the history. */
    method HandleCSVChange(csvText: Option<string>)
      modifies this
      requires Valid()
      ensures csvText.None? ==> parsedHistory == old(parsedHistory)
      ensures csvText.Some? ==> parsedHistory == WorkoutHistory(csvText.value)
      ensures activeTab == old(activeTab) && textContent == old(textContent) && initialTab == old(initialTab)
      ensures Valid()
    {
      if csvText.None? {
        return;
      }
      var sessions := ParseWorkoutCSV(csvText.value);
      HistoryNewestFirst(csvText.value);
      HistoryIsGrouping(csvText.value, WorkoutSession("", "", []));
      parsedHistory := sessions;
    }

    /**
     * `handleCSVConfirm`: nothing without an imported history; otherwise a csv input
     * whose content is the digest of the history.
     */
    method HandleCSVConfirm() returns (emitted: Option<RoutineInput>)
      ensures emitted.Some? <==> parsedHistory != []
      ensures emitted.Some? ==> emitted.value == RoutineInput(CsvInput, WorkoutsDigest(parsedHistory), None)
    {
      if |parsedHistory| == 0 {
        return None;
      }
      var aiText := FormatWorkoutsForAI(parsedHistory);
      emitted := Some(RoutineInput(CsvInput, aiText, None));
    }

    /**
     * `handleTextSubmit`: nothing when the text is blank; otherwise the untrimmed text,
     * as a link on the link tab and as plain text on any other tab.
     */
    method HandleTextSubmit() returns (emitted: Option<RoutineInput>)
      ensures emitted.Some? <==> !AllWhitespace(textContent)
      ensures emitted.Some? ==> emitted.value.content == textContent && emitted.value.mimeType == None
      ensures emitted.Some? ==> (emitted.value.kind == UrlInput <==> activeTab == UrlTab)
      ensures emitted.Some? ==> emitted.value.kind in {UrlInput, TextInput}
    {
      if Trim(textContent) == "" {
        return None;
      }
      emitted := Some(RoutineInput(if activeTab == UrlTab then UrlInput else TextInput, textContent, None));
    }
  }
}
