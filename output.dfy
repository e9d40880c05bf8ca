/** The result panel: what it displays for a given session state, which
    action buttons it offers, its view-mode toggle, the status line set by
    copy/save/download, saving into storage, and the saved-questions modal
    it opens and closes. */
module Output {
  import opened Optional
  import opened Text
  import opened Storage
  import opened Recall

  datatype ViewMode = MarkdownSource | Rendered

  /** Which of the five bodies `renderContent` returns. */
  datatype Display =
    | Spinner
    | ErrorNotice(message: string)
    | Placeholder
    | SourceText(text: string)
    | RenderedMarkdown(text: string)

  /** `error` is truthy: present and not the empty string. */
  predicate HasError(error: Option<string>) {
    error.Some? && error.value != ""
  }

  /** `renderContent`: loading beats an error, an error beats empty content,
      and only non-empty content reaches the view-mode choice. */
  function RenderContent(content: string, isLoading: bool, error: Option<string>, mode: ViewMode): (d: Display)
    ensures d.Spinner? <==> isLoading
    ensures d.ErrorNotice? <==> !isLoading && HasError(error)
    ensures d.ErrorNotice? ==> d.message == error.value
    ensures d.Placeholder? <==> !isLoading && !HasError(error) && content == ""
    ensures d.SourceText? <==> !isLoading && !HasError(error) && content != "" && mode.MarkdownSource?
    ensures d.RenderedMarkdown? <==> !isLoading && !HasError(error) && content != "" && mode.Rendered?
    ensures d.SourceText? || d.RenderedMarkdown? ==> d.text == content
  {
    if isLoading then Spinner
    else if HasError(error) then ErrorNotice(error.value)
    else if content == "" then Placeholder
    else if mode.MarkdownSource? then SourceText(content)
    else RenderedMarkdown(content)
  }

  /** `content && !isLoading && !error`: copy, save and download are offered. */
  predicate ShowActions(content: string, isLoading: bool, error: Option<string>) {
    content != "" && !isLoading && !HasError(error)
  }

  /** The action buttons appear exactly when the content itself is on
      screen, and only then does the view mode make a difference. */
  lemma ActionsExactlyWithContent(content: string, isLoading: bool, error: Option<string>, mode: ViewMode)
    ensures ShowActions(content, isLoading, error) <==>
      (RenderContent(content, isLoading, error, mode).SourceText?
       || RenderContent(content, isLoading, error, mode).RenderedMarkdown?)
    ensures !ShowActions(content, isLoading, error) ==>
      RenderContent(content, isLoading, error, MarkdownSource) == RenderContent(content, isLoading, error, Rendered)
  {
  }

  /** `cau-hoi-${iso.split('T')[0]}.md`. */
  function DownloadFileName(iso: string): (name: string)
    ensures |name| >= 11 && name[..8] == "cau-hoi-" && name[|name| - 3..] == ".md"
    ensures 'T' !in name[8..|name| - 3] && name[8..|name| - 3] <= iso
  {
    var date := BeforeFirst(iso, 'T');
    var name := "cau-hoi-" + date + ".md";
    assert name[8..|name| - 3] == date;
    name
  }

  /** For an ISO-8601 timestamp the file is named after its date part. */
  lemma DownloadFileNameOfTimestamp(date: string, time: string)
    requires 'T' !in date
    ensures DownloadFileName(date + "T" + time) == "cau-hoi-" + date + ".md"
  {
    BeforeFirstOfJoin(date, 'T', time);
  }

  /** The title of the `n`-th saved question: a fixed prefix, then digits
      that read back as `n`. */
  function Title(n: nat): (t: string)
    ensures |t| > 8 && t[..8] == "Câu hỏi "
    ensures forall i :: 8 <= i < |t| ==> IsDigit(t[i])
    ensures DigitsValue(t[8..]) == n
  {
    var t := "Câu hỏi " + Decimal(n);
    assert t[8..] == Decimal(n);
    DecimalRoundTrip(n);
    t
  }

  lemma TitlesEqualIffCountsEqual(m: nat, n: nat)
    ensures Title(m) == Title(n) <==> m == n
  {
    DecimalInjective(m, n);
    if Title(m) == Title(n) {
      assert Title(m)[|"Câu hỏi "|..] == Decimal(m);
      assert Title(n)[|"Câu hỏi "|..] == Decimal(n);
    }
  }

  /** The array `handleSave` writes back: one new record pushed at the end,
      titled after the length the array had. */
  function Appended(items: seq<SavedQuestion>, content: string, id: int, timestamp: string): (r: seq<SavedQuestion>)
    ensures |r| == |items| + 1 && r[..|items|] == items
    ensures r[|items|] == SavedQuestion(id, content, timestamp, Title(|items| + 1))
  {
    items + [SavedQuestion(id, content, timestamp, Title(|items| + 1))]
  }

  /** The slot after a save: the new array when it parsed and the write
      succeeded, the old slot otherwise. */
  function SavedSlot(slot: Slot, content: string, id: int, timestamp: string, writeOk: bool): (r: Slot)
    ensures r != slot ==> writeOk && !slot.Corrupt?
    ensures writeOk && !slot.Corrupt? ==>
      && r.Stored?
      && |r.items| == |Parse(slot).value| + 1
      && r.items[..|r.items| - 1] == Parse(slot).value
      && r.items[|r.items| - 1].content == content
  {
    match Parse(slot)
    case Some(items) => if writeOk then Stored(Appended(items, content, id, timestamp)) else slot
    case None => slot
  }

  const CopiedMessage := "Đã sao chép!"
  const CopyFailedMessage := "Lỗi khi sao chép"
  const SavedMessage := "Đã lưu!"
  const SaveFailedMessage := "Lỗi khi lưu"
  const DownloadedMessage := "Đã tải xuống!"
  const DownloadFailedMessage := "Lỗi khi tải xuống"

  class OutputPanel {
    const storage: LocalStorage
    /** Whether the host passed `onContentChange`. */
    const forwardsSelection: bool
    var viewMode: ViewMode
    /** `copySuccess`: the transient status line ("" when hidden). */
    var status: string
    var showSaved: bool

    constructor (storage: LocalStorage, forwardsSelection: bool)
      ensures this.storage == storage && this.forwardsSelection == forwardsSelection
      ensures viewMode == Rendered && status == "" && !showSaved
    {
      this.storage := storage;
      this.forwardsSelection := forwardsSelection;
      viewMode := Rendered;
      status := "";
      showSaved := false;
    }

    /** The two toggle buttons. */
    method SetViewMode(mode: ViewMode)
      modifies this`viewMode
      ensures viewMode == mode
    {
      viewMode := mode;
    }

    /** `handleCopy`; `ok` is whether the clipboard write succeeded. */
    method Copy(ok: bool)
      modifies this`status
      ensures status == if ok then CopiedMessage else CopyFailedMessage
    {
      status := if ok then CopiedMessage else CopyFailedMessage;
    }

    /** `handleSave`, with the clock readings `now` (milliseconds) and
        `nowIso`, and `writeOk` for whether `setItem` succeeded. */
    method Save(content: string, now: int, nowIso: string, writeOk: bool)
      modifies this`status, storage
      ensures storage.slot == SavedSlot(old(storage.slot), content, now, nowIso, writeOk)
      ensures status == if writeOk && !old(storage.slot).Corrupt? then SavedMessage else SaveFailedMessage
    {
      match Parse(storage.slot)
      case None =>
        status := SaveFailedMessage;
      case Some(items) =>
        var updated := Appended(items, content, now, nowIso);
        if writeOk {
          storage.slot := Stored(updated);
          status := SavedMessage;
        } else {
          status := SaveFailedMessage;
        }
    }

    /** `handleDownload`; returns the file name the anchor is given. */
    method Download(nowIso: string, ok: bool) returns (fileName: string)
      modifies this`status
      ensures fileName == DownloadFileName(nowIso)
      ensures status == if ok then DownloadedMessage else DownloadFailedMessage
    {
      fileName := DownloadFileName(nowIso);
      status := if ok then DownloadedMessage else DownloadFailedMessage;
    }

    /** The two-second timer that hides the status line. */
    method ClearStatus()
      modifies this`status
      ensures status == ""
    {
      status := "";
    }

    /** The "saved" button and the modal's close request. */
    method SetShowSaved(show: bool)
      modifies this`showSaved
      ensures showSaved == show
    {
      showSaved := show;
    }

    /** The "saved" button: the modal opens, which mounts a new list panel
        that starts empty and loads the slot at once. */
    method OpenSaved() returns (modal: SavedQuestionsPanel)
      modifies this`showSaved
      ensures showSaved
      ensures fresh(modal) && modal.storage == storage
      ensures modal.shown == Loaded(storage.slot, []) && modal.selected == None
    {
      showSaved := true;
      modal := new SavedQuestionsPanel(storage);
      modal.Load();
    }

    /** `handleSelectSavedQuestion`: what is passed on to the host, if anything. */
    method SelectSaved(selectedContent: string) returns (forwarded: Option<string>)
      ensures forwardsSelection ==> forwarded == Some(selectedContent)
      ensures !forwardsSelection ==> forwarded == None
    {
      forwarded := if forwardsSelection then Some(selectedContent) else None;
    }
  }
}
