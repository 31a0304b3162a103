/**
 * The chat pane: the message thread, the send action and the model catalog.
 * Each network call is split in two: a start step that runs up to the
 * `await`, and a completion step that receives the reply as a parameter.
 * Clock readings (`Date.now()`) are parameters too.
 */
module ChatInterface {
  import opened Wrappers
  import opened Text

  // ---------------------------------------------------------------------------
  // Values
  // ---------------------------------------------------------------------------

  datatype Role = User | Ai

  /** A thread entry; `id` and `timestamp` are clock readings in milliseconds. */
  datatype Message = Message(id: nat, role: Role, content: string, timestamp: nat)

  /** A notification shown to the user. */
  datatype Toast = Toast(title: string, description: string, destructive: bool)

  /** A thrown JavaScript error: its `name` and `message`. */
  datatype JsError = JsError(name: string, message: string)

  /** What an awaited `fetch` followed by `response.json()` gives: a response, or a thrown error. */
  datatype HttpReply<T> = Reply(status: nat, body: T) | Thrown(error: JsError)

  /** `response.ok`: a 2xx status. */
  predicate IsOk(status: nat) {
    200 <= status <= 299
  }

  /** The message of the error both handlers throw on a non-2xx status. */
  function HttpErrorMessage(status: nat): (m: string)
    ensures StartsWith(m, "HTTP error")
    ensures Includes(m, Decimal(status))
  {
    var m := "HTTP error! status: " + Decimal(status);
    IncludesInfix("HTTP error! status: ", Decimal(status), "");
    assert "HTTP error! status: " + Decimal(status) + "" == m;
    m
  }

  /** The error that reaches the `catch` block, if any. */
  function Failure<T>(reply: HttpReply<T>): (e: Option<JsError>)
    ensures e.None? <==> reply.Reply? && IsOk(reply.status)
    ensures reply.Thrown? ==> e == Some(reply.error)
    ensures reply.Reply? && !IsOk(reply.status) ==>
      e.Some? && e.value.name == "Error" && StartsWith(e.value.message, "HTTP error")
  {
    match reply
    case Reply(status, _) => if IsOk(status) then None else Some(JsError("Error", HttpErrorMessage(status)))
    case Thrown(error) => Some(error)
  }

  // ---------------------------------------------------------------------------
  // Message contents
  // ---------------------------------------------------------------------------

  const NoAnswerText := "No response received from the model."

  /** `data.answer || 'No response received from the model.'`: a missing or empty answer is replaced. */
  function AnswerText(answer: Option<string>): (r: string)
    ensures r != ""
    ensures r == NoAnswerText <==> answer.None? || answer.value == "" || answer.value == NoAnswerText
    ensures r != NoAnswerText ==> answer == Some(r)
  {
    if answer.Some? && answer.value != "" then answer.value else NoAnswerText
  }

  const SendErrorPrefix := "Sorry, I encountered an error while processing your request: "
  const SendErrorSuffix := ". Please try again."

  /** The AI message shown when the exchange fails: it embeds the error's message. */
  function SendErrorText(message: string): (r: string)
    ensures StartsWith(r, SendErrorPrefix)
    ensures Includes(r, message)
    ensures |r| == |SendErrorPrefix| + |message| + |SendErrorSuffix|
    ensures r[|SendErrorPrefix|..|r| - |SendErrorSuffix|] == message
    ensures r[|r| - |SendErrorSuffix|..] == SendErrorSuffix
  {
    var r := SendErrorPrefix + message + SendErrorSuffix;
    assert r[..|SendErrorPrefix|] == SendErrorPrefix;
    IncludesInfix(SendErrorPrefix, message, SendErrorSuffix);
    r
  }

  /** The content of the AI message that completes an exchange. */
  function ReplyContent(reply: HttpReply<Option<string>>): (r: string)
    ensures r != ""
    ensures Failure(reply).None? ==> r == AnswerText(reply.body)
    ensures Failure(reply).Some? ==> r == SendErrorText(Failure(reply).value.message)
  {
    match Failure(reply)
    case None => AnswerText(reply.body)
    case Some(e) => SendErrorText(e.message)
  }

  // ---------------------------------------------------------------------------
  // Model catalog texts
  // ---------------------------------------------------------------------------

  const FallbackModels: seq<string> := ["gpt-4", "gpt-3.5-turbo", "claude-3", "llama-2"]

  const CorsErrorText := "CORS error: " + "Cannot connect to localhost:8000. Please check if the server supports CORS."
  const DefaultCatalogErrorText := "Failed to load available models. Using default models."

  /** A thrown `TypeError` about a failed fetch: what the browser reports for a refused connection. */
  predicate IsConnectionFailure(e: JsError) {
    e.name == "TypeError" && Includes(e.message, "Failed to fetch")
  }

  /** The description of the toast raised when loading the catalog fails. */
  function CatalogErrorText(e: JsError): (r: string)
    ensures IsConnectionFailure(e) ==> r == CorsErrorText
    ensures !IsConnectionFailure(e) && Includes(e.message, "HTTP error") ==> r == "Server error: " + e.message
    ensures !IsConnectionFailure(e) && !Includes(e.message, "HTTP error") ==> r == DefaultCatalogErrorText
  {
    if IsConnectionFailure(e) then CorsErrorText
    else if Includes(e.message, "HTTP error") then "Server error: " + e.message
    else DefaultCatalogErrorText
  }

  /** A non-2xx catalog reply is reported as a server error naming the status. */
  lemma HttpFailureIsServerError<T>(reply: HttpReply<T>)
    requires reply.Reply? && !IsOk(reply.status)
    ensures CatalogErrorText(Failure(reply).value) == "Server error: " + HttpErrorMessage(reply.status)
  {
    var e := Failure(reply).value;
    assert e.message == HttpErrorMessage(reply.status) && e.name == "Error";
    assert !IsConnectionFailure(e);
    assert StartsWith(e.message, "HTTP error");
    assert Includes(e.message, "HTTP error");
  }

  /** A connection failure and a bad status give different descriptions. */
  lemma CatalogErrorsDistinguished<T>(refused: HttpReply<T>, bad: HttpReply<T>)
    requires refused.Thrown? && IsConnectionFailure(refused.error)
    requires bad.Reply? && !IsOk(bad.status)
    ensures CatalogErrorText(Failure(refused).value) != CatalogErrorText(Failure(bad).value)
  {
    HttpFailureIsServerError(bad);
    assert CorsErrorText[0] == 'C';
    assert ("Server error: " + HttpErrorMessage(bad.status))[0] == 'S';
  }

  /** The description of the notice raised when the catalog loads: it names the model count. */
  function LoadedDescription(count: nat): (r: string) {
    "Loaded " + Decimal(count) + " models from API"
  }

  const NoModelToast := Toast("No Model Selected", "Please select a model before sending a message.", true)
  const SendFailedToast := Toast("Error", "Failed to get response from the model. Please try again.", true)

  // ---------------------------------------------------------------------------
  // The component state
  // ---------------------------------------------------------------------------

  /** What the first step of `handleSend` did. */
  datatype SendStart =
    | Ignored                                     // blank input: nothing happens
    | Rejected(toast: Toast)                      // no model selected
    | Accepted(model: string, question: string)   // the request to make

  /** A thread entry as the send action creates them: never empty, a user's entry trimmed. */
  predicate WellFormed(m: Message) {
    m.content != "" && (m.role == User ==> Trim(m.content) == m.content)
  }

  class Chat {
    var messages: seq<Message>
    var input: string
    var isTyping: bool
    var selectedModel: string
    var availableModels: seq<string>
    var modelsLoading: bool

    ghost predicate Valid()
      reads this
    {
      forall i :: 0 <= i < |messages| ==> WellFormed(messages[i])
    }

    /** The initial state of the component. */
    constructor ()
      ensures Valid()
      ensures messages == [] && input == "" && !isTyping
      ensures selectedModel == "" && availableModels == [] && modelsLoading
    {
      messages := [];
      input := "";
      isTyping := false;
      selectedModel := "";
      availableModels := [];
      modelsLoading := true;
    }

    /** The send button is enabled: some non-blank input and no exchange in progress. */
    predicate CanSend()
      reads this
      ensures CanSend() <==> !isTyping && exists k :: 0 <= k < |input| && !IsSpace(input[k])
    {
      TrimEmptyIff(input);
      Trim(input) != "" && !isTyping
    }

    /** Typing into the input box. */
    method SetInput(text: string)
      modifies this`input
      ensures input == text
    {
      input := text;
    }

    /** Picking a model from the selector. */
    method SelectModel(model: string)
      modifies this`selectedModel
      ensures selectedModel == model
    {
      selectedModel := model;
    }

    /**
     * `handleSend` up to its `await`: blank input is ignored, a missing model is
     * refused with a notice, otherwise the trimmed input is appended as a user
     * message, the input is cleared and the typing indicator is set.
     */
    method StartSend(clock: nat) returns (start: SendStart)
      requires Valid()
      modifies this`messages, this`input, this`isTyping
      ensures Valid()
      ensures start == Ignored <==> Trim(old(input)) == ""
      ensures start.Rejected? <==> Trim(old(input)) != "" && selectedModel == ""
      ensures start.Rejected? ==> start.toast == NoModelToast
      ensures !start.Accepted? ==> messages == old(messages) && input == old(input) && isTyping == old(isTyping)
      ensures start.Accepted? ==>
        start == Accepted(selectedModel, Trim(old(input)))
        && messages == old(messages) + [Message(clock, User, Trim(old(input)), clock)]
        && input == "" && isTyping && !CanSend()
    {
      var question := Trim(input);
      if question == "" {
        return Ignored;
      }
      if selectedModel == "" {
        return Rejected(NoModelToast);
      }
      var m := Message(clock, User, question, clock);
      assert WellFormed(m) by { TrimIdempotent(old(input)); }
      messages := messages + [m];
      input := "";
      isTyping := true;
      assert !CanSend();
      start := Accepted(selectedModel, question);
    }

    /**
     * `handleSend` after its `await`: one AI message with the answer or the error
     * is appended, a failure raises a notice, and the typing indicator is cleared.
     */
    method CompleteSend(reply: HttpReply<Option<string>>, clock: nat) returns (toast: Option<Toast>)
      requires Valid()
      modifies this`messages, this`isTyping
      ensures Valid()
      ensures messages == old(messages) + [Message(clock + 1, Ai, ReplyContent(reply), clock)]
      ensures !isTyping
      ensures toast.Some? <==> Failure(reply).Some?
      ensures toast.Some? ==> toast.value == SendFailedToast
    {
      var content := ReplyContent(reply);
      messages := messages + [Message(clock + 1, Ai, content, clock)];
      toast := if Failure(reply).Some? then Some(SendFailedToast) else None;
      isTyping := false;
    }

    /**
     * One whole `handleSend` with no other event between its two halves: an accepted
     * send adds exactly a user message and then an AI message, and nothing is removed.
     */
    method HandleSend(reply: HttpReply<Option<string>>, sentAt: nat, repliedAt: nat)
      returns (start: SendStart, toast: Option<Toast>)
      requires Valid()
      modifies this`messages, this`input, this`isTyping
      ensures Valid()
      ensures !start.Accepted? ==>
        messages == old(messages) && input == old(input) && isTyping == old(isTyping)
        && toast == (if start.Rejected? then Some(NoModelToast) else None)
      ensures start == Ignored <==> Trim(old(input)) == ""
      ensures start.Rejected? <==> Trim(old(input)) != "" && selectedModel == ""
      ensures start.Accepted? <==> Trim(old(input)) != "" && selectedModel != ""
      ensures start.Accepted? ==>
        start == Accepted(selectedModel, Trim(old(input)))
        && |messages| == |old(messages)| + 2 && messages[..|old(messages)|] == old(messages)
        && messages[|old(messages)|] == Message(sentAt, User, Trim(old(input)), sentAt)
        && messages[|old(messages)| + 1] == Message(repliedAt + 1, Ai, ReplyContent(reply), repliedAt)
        && input == "" && !isTyping
        && (toast.Some? <==> Failure(reply).Some?)
        && (toast.Some? ==> toast.value == SendFailedToast)
    {
      start := StartSend(sentAt);
      match start
      case Ignored =>
        toast := None;
      case Rejected(t) =>
        toast := Some(t);
      case Accepted(_, _) =>
        toast := CompleteSend(reply, repliedAt);
    }

    /** `fetchModels` up to its `await`. */
    method StartFetchModels()
      modifies this`modelsLoading
      ensures modelsLoading
    {
      modelsLoading := true;
    }

    /**
     * `fetchModels` after its `await`: a good reply replaces the catalog and selects
     * its first model; any failure installs the fallback catalog and selects "gpt-4";
     * either way loading ends.
     */
    method CompleteFetchModels(reply: HttpReply<seq<string>>) returns (toast: Toast)
      modifies this`availableModels, this`selectedModel, this`modelsLoading
      ensures !modelsLoading
      ensures Failure(reply).None? ==>
        availableModels == reply.body
        && selectedModel == (if reply.body != [] then reply.body[0] else old(selectedModel))
        && toast == Toast("Success", LoadedDescription(|reply.body|), false)
      ensures Failure(reply).Some? ==>
        availableModels == FallbackModels && selectedModel == "gpt-4"
        && toast == Toast("Error", CatalogErrorText(Failure(reply).value), true)
    {
      modelsLoading := false;
      match Failure(reply)
      case None =>
        var models := reply.body;
        availableModels := models;
        if |models| > 0 {
          selectedModel := models[0];
        }
        toast := Toast("Success", LoadedDescription(|models|), false);
      case Some(e) =>
        toast := Toast("Error", CatalogErrorText(e), true);
        availableModels := FallbackModels;
        selectedModel := FallbackModels[0];
    }

    /** One whole `fetchModels`. */
    method FetchModels(reply: HttpReply<seq<string>>) returns (toast: Toast)
      modifies this`availableModels, this`selectedModel, this`modelsLoading
      ensures !modelsLoading
      ensures Failure(reply).None? ==>
        availableModels == reply.body
        && (reply.body != [] ==> selectedModel == reply.body[0])
        && (reply.body == [] ==> selectedModel == old(selectedModel))
      ensures Failure(reply).Some? ==> availableModels == FallbackModels && selectedModel == FallbackModels[0]
    {
      StartFetchModels();
      toast := CompleteFetchModels(reply);
    }
  }
}
