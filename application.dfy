/** The top-level component: it owns the form record and the session state
    of one generation (the content, the loading flag and the error), runs
    the generation lifecycle, and hands the session state to the result
    panel. */
module Application {
  import opened Optional
  import opened FormTypes
  import opened Gemini
  import opened Storage
  import opened Output

  /** The record the form starts with. */
  const DefaultForm := FormData(
    "Toán", "Lớp 3", "Trắc nghiệm", "3 câu", "Thông hiểu", "Phép cộng đặt tính",
    true, true, "", "Bài tập hàng ngày", "Thân thiện, vui vẻ")

  const UnknownErrorMessage := "An unknown error occurred."

  /** The catch clause: an `Error`'s message, or a fixed text otherwise. */
  function ErrorText(t: Thrown): string {
    match t
    case ErrorObject(message) => message
    case NonError => UnknownErrorMessage
  }

  /** The content a settled generation leaves: the text on success, and on
      failure the empty string the start put there. */
  function ContentAfter(outcome: Settled): string {
    if outcome.Resolved? then outcome.text else ""
  }

  /** The error a settled generation leaves. */
  function ErrorAfter(outcome: Settled): Option<string> {
    if outcome.Resolved? then None else Some(ErrorText(outcome.thrown))
  }

  /** After any generation the panel shows either the returned text (or the
      placeholder, when that text is empty), or the error and no content,
      never both; a failure of the service always shows its one fixed
      message, whatever went wrong. */
  lemma SettledDisplay(service: Service, f: FormData, reply: ProviderReply, mode: ViewMode)
    ensures var outcome := GenerateQuestions(service, f, reply);
      var d := RenderContent(ContentAfter(outcome), false, ErrorAfter(outcome), mode);
      && (reply.Answered? && reply.text != "" ==>
            (d.SourceText? || d.RenderedMarkdown?) && d.text == reply.text
            && ShowActions(ContentAfter(outcome), false, ErrorAfter(outcome)))
      && (reply.Answered? && reply.text == "" ==> d == Placeholder)
      && (reply.ProviderFailed? ==> d == ErrorNotice(FailureMessage) && ContentAfter(outcome) == "")
  {
  }

  class App {
    const service: Service
    /** The result panel; the host does not pass `onContentChange`. */
    const output: OutputPanel
    var form: FormData
    var content: string
    var isLoading: bool
    var error: Option<string>

    /** The session invariant: while loading nothing else is shown, and an
        error is never shown beside content. */
    ghost predicate Valid()
      reads this
    {
      && (isLoading ==> content == "" && error == None)
      && (error.Some? ==> content == "")
    }

    constructor (service: Service, storage: LocalStorage)
      ensures this.service == service
      ensures fresh(output) && output.storage == storage && !output.forwardsSelection
      ensures output.viewMode == Rendered && output.status == "" && !output.showSaved
      ensures form == DefaultForm && content == "" && !isLoading && error == None
      ensures Valid()
    {
      this.service := service;
      output := new OutputPanel(storage, false);
      form := DefaultForm;
      content := "";
      isLoading := false;
      error := None;
    }

    /** What the result panel shows for the current session. */
    function Screen(): Display
      reads this, output`viewMode
    {
      RenderContent(content, isLoading, error, output.viewMode)
    }

    /** The synchronous part of `handleGenerate`, before the await: clear
        the session and start loading; the request goes out for the form
        as it is now. */
    method StartGenerate() returns (request: Request)
      modifies this`content, this`isLoading, this`error
      ensures isLoading && error == None && content == ""
      ensures request == RequestFor(form)
      ensures Valid()
    {
      isLoading := true;
      error := None;
      content := "";
      request := RequestFor(form);
    }

    /** The rest of `handleGenerate`, once the promise settles: store the
        text or the error message, and in every case stop loading. */
    method Complete(outcome: Settled)
      requires isLoading && Valid()
      modifies this`content, this`isLoading, this`error
      ensures !isLoading
      ensures content == ContentAfter(outcome) && error == ErrorAfter(outcome)
      ensures Valid()
    {
      match outcome {
        case Resolved(text) =>
          content := text;
        case Rejected(thrown) =>
          error := Some(ErrorText(thrown));
      }
      isLoading := false;
    }

    /** The whole lifecycle for one reply of the provider. */
    method Generate(reply: ProviderReply) returns (request: Request)
      modifies this`content, this`isLoading, this`error
      ensures request == RequestFor(form)
      ensures !isLoading && Valid()
      ensures content == ContentAfter(GenerateQuestions(service, form, reply))
      ensures error == ErrorAfter(GenerateQuestions(service, form, reply))
    {
      request := StartGenerate();
      Complete(GenerateQuestions(service, form, reply));
    }
  }
}
