/**
  The browser-facing WebSocket endpoint: each session is registered in the
  set of active connections, then every text frame is decoded and dispatched
  on its `type` (`activate`, `get_token`, `user_input`, anything else
  ignored); a `user_input` produces exactly one `response` whose text comes
  from the upstream chat-completion answer, or a fixed apology when that call
  fails. Any error outside the model call ends the session, and the session
  is removed from the set on the way out.

  Token minting, the HTTP call to the model and JSON decoding are outside the
  model: each frame carries what the token mint and the upstream call gave
  back (a mint that raises ends the session like any other error outside the
  model call), and the requests the server would send are recorded as an
  output.
*/
module Server {
  import opened Wrappers
  import opened Text

  /** `message.get("text", "")`: missing, a string, or a value without `.strip()` (null, a number, ...). */
  datatype TextField = Absent | Str(s: string) | NotAString

  /** One decoded browser frame; `Malformed` is text that is not JSON or JSON that is not an object. */
  datatype Inbound =
    | Object(msgType: Option<string>, text: TextField)  // `msgType` is `None` when absent or not a string
    | Malformed

  /** `choice["message"]["content"]`, `None` when either key is missing. */
  datatype Choice = Choice(content: Option<string>)

  /** `data["error"]["message"]`: absent, JSON `null`, or a string. */
  datatype ErrorMessage = NoMessage | NullMessage | TextMessage(s: string)

  /** `data["error"]`: an object with its `message`, or some other JSON value. */
  datatype ErrorField = ErrorObject(message: ErrorMessage) | ErrorNotObject

  /** What the upstream call gave back: an exception anywhere on the way, or the decoded JSON object. */
  datatype Upstream =
    | Raised
    | Body(choices: Option<seq<Choice>>, error: Option<ErrorField>)

  /** The JSON objects the server sends to the browser. */
  datatype Outbound =
    | Greeting(message: string)
    | TokenMsg(token: string, url: Option<string>)
    | Response(message: string)

  datatype Role = System | User
  datatype ChatMessage = ChatMessage(role: Role, content: string)

  /** The body of the chat-completion request. */
  datatype Request = Request(model: string, messages: seq<ChatMessage>, maxTokens: int)

  /**
    One received frame, with what the token mint and the upstream call give
    back if it is used; `token` is `None` when minting the token raises.
  */
  datatype Frame = Frame(message: Inbound, token: Option<string>, upstream: Upstream)

  /** What handling one frame does to the session. */
  datatype Step = Send(out: Outbound) | Ignore | Close

  const GreetingText: string := "Hey, how can I help you?"
  const TroubleText: string := "Sorry, I had trouble thinking. Try again."
  const UnsureText: string := "I'm not sure how to respond."
  const UnknownError: string := "Unknown error"
  const ApiErrorPrefix: string := "API error: "
  /** How an f-string renders Python's `None`. */
  const NoneText: string := "None"
  const MaxTokens: int := 300

  /** The reply text taken from the upstream answer. */
  function ReplyText(u: Upstream): string {
    match u
    case Raised => TroubleText
    case Body(choices, error) =>
      if choices.Some? && |choices.value| > 0 then
        (match choices.value[0].content
         case Some(c) => c
         case None => TroubleText)            // KeyError inside the try
      else if error.Some? then
        (match error.value
         case ErrorObject(m) => ApiErrorPrefix + MessageText(m)
         case ErrorNotObject => TroubleText)  // `.get` on a non-object raises inside the try
      else UnsureText
  }

  /** `.get('message', 'Unknown error')` as an f-string renders it: the default applies only to an absent key. */
  function MessageText(m: ErrorMessage): string {
    match m
    case NoMessage => UnknownError
    case NullMessage => NoneText
    case TextMessage(t) => t
  }

  /** `message.get("text", "").strip()`, or `None` when `.strip()` raises. */
  function UserText(t: TextField): (r: Option<string>)
    ensures t.Absent? ==> r == Some("")
    ensures t.Str? ==> r.Some? && (r.value == [] <==> IsBlank(t.s))
    ensures r.Some? ==> r.value == [] || (!IsSpace(r.value[0]) && !IsSpace(r.value[|r.value| - 1]))
    ensures t.NotAString? <==> r.None?
  {
    match t
    case Absent => Some(Strip(""))
    case Str(s) => Some(Strip(s))
    case NotAString => None
  }

  /** The request sent for one user text: the system prompt and that text, and nothing else. */
  function BuildRequest(model: string, systemPrompt: string, userText: string): Request {
    Request(model, [ChatMessage(System, systemPrompt), ChatMessage(User, userText)], MaxTokens)
  }

  /** How one frame is handled; `url` is the configured LiveKit URL. */
  function Dispatch(f: Frame, url: Option<string>): Step {
    match f.message
    case Malformed => Close
    case Object(ty, text) =>
      if ty == Some("activate") then Send(Greeting(GreetingText))
      else if ty == Some("get_token") then
        (match f.token
         case None => Close                 // the mint raised outside the model-call try
         case Some(t) => Send(TokenMsg(t, url)))
      else if ty == Some("user_input") then
        (match UserText(text)
         case None => Close
         case Some(_) => Send(Response(ReplyText(f.upstream))))
      else Ignore
  }

  /** The requests one frame causes. */
  function FrameRequests(f: Frame, model: string, systemPrompt: string): seq<Request> {
    match f.message
    case Malformed => []
    case Object(ty, text) =>
      if ty == Some("user_input") && UserText(text).Some? then [BuildRequest(model, systemPrompt, UserText(text).value)]
      else []
  }

  /** The message one step sends, if any. */
  function Emitted(step: Step): seq<Outbound> {
    if step.Send? then [step.out] else []
  }

  /** The messages a session sends for a sequence of frames: it stops at the first frame that closes it. */
  function Transcript(frames: seq<Frame>, url: Option<string>): seq<Outbound>
    decreases |frames|
  {
    if frames == [] || Dispatch(frames[0], url).Close? then []
    else Emitted(Dispatch(frames[0], url)) + Transcript(frames[1..], url)
  }

  /** The requests a session sends upstream for a sequence of frames. */
  function Requests(frames: seq<Frame>, url: Option<string>, model: string, systemPrompt: string): seq<Request>
    decreases |frames|
  {
    if frames == [] then []
    else if Dispatch(frames[0], url).Close? then []
    else FrameRequests(frames[0], model, systemPrompt) + Requests(frames[1..], url, model, systemPrompt)
  }

  class Server {
    /** The configured LiveKit URL (possibly unset), the model name and the system prompt. */
    const livekitUrl: Option<string>
    const llmModel: string
    const systemPrompt: string
    /** The session ids of the open WebSocket connections. */
    var activeConnections: set<nat>

    constructor (url: Option<string>, model: string, prompt: string)
      ensures livekitUrl == url && llmModel == model && systemPrompt == prompt
      ensures activeConnections == {}
    {
      livekitUrl := url;
      llmModel := model;
      systemPrompt := prompt;
      activeConnections := {};
    }

    /** Accepting a connection registers its session id. */
    method Register(sessionId: nat)
      modifies this`activeConnections
      ensures activeConnections == old(activeConnections) + {sessionId}
    {
      activeConnections := activeConnections + {sessionId};
    }

    /** Leaving the handler drops the session id, whether or not it is still there. */
    method Unregister(sessionId: nat)
      modifies this`activeConnections
      ensures activeConnections == old(activeConnections) - {sessionId}
    {
      activeConnections := activeConnections - {sessionId};
    }

    /**
      The body of the receive loop for one decoded frame: what it sends, the
      request it makes upstream, and whether the session stays open.
    */
    method HandleFrame(f: Frame) returns (out: seq<Outbound>, request: seq<Request>, keepOpen: bool)
      ensures keepOpen == !Dispatch(f, livekitUrl).Close?
      ensures keepOpen ==> out == Emitted(Dispatch(f, livekitUrl))
      ensures keepOpen ==> request == FrameRequests(f, llmModel, systemPrompt)
      ensures !keepOpen ==> out == [] && request == []
      ensures |out| <= 1 && |request| <= |out|
    {
      out, request, keepOpen := [], [], true;
      var message := f.message;
      if message.Malformed? {
        keepOpen := false;
        return;
      }
      if message.msgType == Some("activate") {
        out := [Greeting(GreetingText)];
      } else if message.msgType == Some("get_token") {
        var token := f.token;
        if token.None? {
          keepOpen := false;
          return;
        }
        out := [TokenMsg(token.value, livekitUrl)];
      } else if message.msgType == Some("user_input") {
        var userText := UserText(message.text);
        if userText.None? {
          keepOpen := false;
          return;
        }
        request := [BuildRequest(llmModel, systemPrompt, userText.value)];
        var responseText := ReplyText(f.upstream);
        out := [Response(responseText)];
      }
    }

    /**
      The `while True` receive loop: frames are handled in order until one
      closes the session or the browser disconnects.
    */
    method ReceiveLoop(frames: seq<Frame>) returns (sent: seq<Outbound>, requests: seq<Request>)
      ensures sent == Transcript(frames, livekitUrl)
      ensures requests == Requests(frames, livekitUrl, llmModel, systemPrompt)
    {
      sent, requests := [], [];
      var i := 0;
      while i < |frames|
        invariant 0 <= i <= |frames|
        invariant sent + Transcript(frames[i..], livekitUrl) == Transcript(frames, livekitUrl)
        invariant requests + Requests(frames[i..], livekitUrl, llmModel, systemPrompt)
          == Requests(frames, livekitUrl, llmModel, systemPrompt)
      {
        var out, request, keepOpen := HandleFrame(frames[i]);
        if !keepOpen {
          SessionCloses(frames, i, livekitUrl, llmModel, systemPrompt);
          break;
        }
        SessionAdvances(frames, i, livekitUrl, llmModel, systemPrompt, sent, requests);
        sent := sent + out;
        requests := requests + request;
        i := i + 1;
      }
      if i == |frames| {
        assert frames[i..] == [];
      }
    }

    /**
      One WebSocket session over the frames it receives before the browser
      disconnects. The session is registered for the whole loop and removed
      at the end.
    */
    method WebsocketEndpoint(sessionId: nat, frames: seq<Frame>) returns (sent: seq<Outbound>, requests: seq<Request>)
      modifies this`activeConnections
      ensures activeConnections == old(activeConnections) - {sessionId}
      ensures sent == Transcript(frames, livekitUrl)
      ensures requests == Requests(frames, livekitUrl, llmModel, systemPrompt)
    {
      Register(sessionId);
      sent, requests := ReceiveLoop(frames);
      assert sessionId in activeConnections;
      Unregister(sessionId);
    }
  }

  /** A frame that does not close the session sends what it emits, then the rest of the session follows. */
  lemma SessionAdvances(frames: seq<Frame>, i: nat, url: Option<string>, model: string, prompt: string,
                        sent: seq<Outbound>, requests: seq<Request>)
    requires i < |frames| && !Dispatch(frames[i], url).Close?
    requires sent + Transcript(frames[i..], url) == Transcript(frames, url)
    requires requests + Requests(frames[i..], url, model, prompt) == Requests(frames, url, model, prompt)
    ensures sent + Emitted(Dispatch(frames[i], url)) + Transcript(frames[i + 1..], url) == Transcript(frames, url)
    ensures requests + FrameRequests(frames[i], model, prompt) + Requests(frames[i + 1..], url, model, prompt)
      == Requests(frames, url, model, prompt)
  {
    var rest := frames[i..];
    assert rest[0] == frames[i] && rest[1..] == frames[i + 1..];
    TranscriptStep(rest, url);
    RequestsStep(rest, url, model, prompt);
    Regroup(sent, Emitted(Dispatch(frames[i], url)), Transcript(frames[i + 1..], url), Transcript(frames, url));
    Regroup(requests, FrameRequests(frames[i], model, prompt), Requests(frames[i + 1..], url, model, prompt),
            Requests(frames, url, model, prompt));
  }

  /** What was sent so far, then one frame's part, then the rest: the grouping does not matter. */
  lemma Regroup<T>(done: seq<T>, step: seq<T>, rest: seq<T>, whole: seq<T>)
    requires done + (step + rest) == whole
    ensures done + step + rest == whole
  {
    assert done + step + rest == done + (step + rest);
  }

  /** A session that does not close on its first frame sends that frame's message, then the rest. */
  lemma TranscriptStep(fs: seq<Frame>, url: Option<string>)
    requires fs != [] && !Dispatch(fs[0], url).Close?
    ensures Transcript(fs, url) == Emitted(Dispatch(fs[0], url)) + Transcript(fs[1..], url)
  {
  }

  /** A session that does not close on its first frame requests what that frame requests, then the rest. */
  lemma RequestsStep(fs: seq<Frame>, url: Option<string>, model: string, prompt: string)
    requires fs != [] && !Dispatch(fs[0], url).Close?
    ensures Requests(fs, url, model, prompt) == FrameRequests(fs[0], model, prompt) + Requests(fs[1..], url, model, prompt)
  {
  }

  /** A frame that closes the session ends both what it sends and what it requests. */
  lemma SessionCloses(frames: seq<Frame>, i: nat, url: Option<string>, model: string, prompt: string)
    requires i < |frames| && Dispatch(frames[i], url).Close?
    ensures Transcript(frames[i..], url) == []
    ensures Requests(frames[i..], url, model, prompt) == []
  {
  }

  // ---------------------------------------------------------------------
  // Properties of the dispatch and of the reply extraction
  // ---------------------------------------------------------------------

  /** An `activate` message is answered with exactly the fixed greeting. */
  lemma ActivateGreets(f: Frame, url: Option<string>)
    requires f.message.Object? && f.message.msgType == Some("activate")
    ensures Dispatch(f, url) == Send(Greeting("Hey, how can I help you?"))
  {
  }

  /** A `user_input` whose text can be stripped gets exactly one `response`, and causes exactly one request. */
  lemma UserInputGetsOneResponse(f: Frame, url: Option<string>, model: string, prompt: string)
    requires f.message.Object? && f.message.msgType == Some("user_input") && !f.message.text.NotAString?
    ensures Dispatch(f, url) == Send(Response(ReplyText(f.upstream)))
    ensures |FrameRequests(f, model, prompt)| == 1
  {
  }

  /** A type other than the three known ones produces nothing and leaves the session open. */
  lemma UnknownTypeIgnored(f: Frame, url: Option<string>, model: string, prompt: string)
    requires f.message.Object?
    requires f.message.msgType !in {Some("activate"), Some("get_token"), Some("user_input")}
    ensures Dispatch(f, url) == Ignore
    ensures FrameRequests(f, model, prompt) == []
  {
  }

  /** The request carries exactly the system prompt and the stripped user text: no history. */
  lemma RequestHasTwoMessages(f: Frame, model: string, prompt: string)
    requires f.message.Object? && f.message.msgType == Some("user_input") && f.message.text.Str?
    ensures var rs := FrameRequests(f, model, prompt);
      && |rs| == 1
      && rs[0].messages == [ChatMessage(System, prompt), ChatMessage(User, Strip(f.message.text.s))]
      && rs[0].maxTokens == 300
  {
  }

  /** Non-empty `choices` give the first choice's content, whatever `error` holds. */
  lemma ReplyFromFirstChoice(choices: seq<Choice>, error: Option<ErrorField>)
    requires |choices| > 0 && choices[0].content.Some?
    ensures ReplyText(Body(Some(choices), error)) == choices[0].content.value
  {
  }

  /**
    Without usable choices an error object gives "API error: " and its
    message; an absent message reads "Unknown error" and a `null` one "None".
  */
  lemma ReplyFromError(choices: Option<seq<Choice>>, m: ErrorMessage)
    requires choices.None? || choices.value == []
    ensures m.TextMessage? ==> ReplyText(Body(choices, Some(ErrorObject(m)))) == "API error: " + m.s
    ensures m.NoMessage? ==> ReplyText(Body(choices, Some(ErrorObject(m)))) == "API error: Unknown error"
    ensures m.NullMessage? ==> ReplyText(Body(choices, Some(ErrorObject(m)))) == "API error: None"
  {
  }

  /** Neither choices nor an error: the fixed "not sure" reply. */
  lemma ReplyOtherwiseUnsure(choices: Option<seq<Choice>>)
    requires choices.None? || choices.value == []
    ensures ReplyText(Body(choices, None)) == "I'm not sure how to respond."
  {
  }

  /**
    The reply is one of the shapes above: the first content, an API error, or
    one of two fixed texts; every failure inside the model call gives the
    fixed apology.
  */
  lemma ReplyShapes(u: Upstream)
    ensures u.Raised? ==> ReplyText(u) == "Sorry, I had trouble thinking. Try again."
    ensures var r := ReplyText(u);
      || r == TroubleText
      || r == UnsureText
      || (u.Body? && u.choices.Some? && |u.choices.value| > 0 && u.choices.value[0].content == Some(r))
      || (u.Body? && exists m :: r == ApiErrorPrefix + m)
  {
    var r := ReplyText(u);
    if u.Body? && !(u.choices.Some? && |u.choices.value| > 0) && u.error.Some? && u.error.value.ErrorObject? {
      assert r == ApiErrorPrefix + MessageText(u.error.value.message);
    }
  }

  /** A session's sent messages: one per frame at most, so never more than it received. */
  lemma {:induction false} TranscriptBounded(frames: seq<Frame>, url: Option<string>)
    ensures |Transcript(frames, url)| <= |frames|
    decreases |frames|
  {
    if frames != [] {
      TranscriptBounded(frames[1..], url);
    }
  }

  /** Counting `user_input` frames: every one handled before the session closes gets one response. */
  function CountUserInputs(frames: seq<Frame>): nat
    decreases |frames|
  {
    if frames == [] then 0
    else
      var here := if frames[0].message.Object? && frames[0].message.msgType == Some("user_input") then 1 else 0;
      here + CountUserInputs(frames[1..])
  }

  function CountResponses(out: seq<Outbound>): nat
    decreases |out|
  {
    if out == [] then 0 else (if out[0].Response? then 1 else 0) + CountResponses(out[1..])
  }

  /**
    A session whose frames are all well-formed, with strippable text, and
    whose every token is minted, sends one response per `user_input`.
  */
  lemma {:induction false} ResponsesMatchUserInputs(frames: seq<Frame>, url: Option<string>)
    requires forall k :: 0 <= k < |frames| ==> frames[k].message.Object? && !frames[k].message.text.NotAString?
    requires forall k :: 0 <= k < |frames| ==> frames[k].token.Some?
    ensures CountResponses(Transcript(frames, url)) == CountUserInputs(frames)
    decreases |frames|
  {
    if frames != [] {
      ResponsesMatchUserInputs(frames[1..], url);
      var rest := Transcript(frames[1..], url);
      var step := Dispatch(frames[0], url);
      var t := Transcript(frames, url);
      if step.Send? {
        assert t == [step.out] + rest;
        assert t[1..] == rest;
        assert step.out.Response? <==> frames[0].message.msgType == Some("user_input");
      } else {
        assert t == rest;
      }
    }
  }

  /**
    A `get_token` whose mint raises ends the session before anything is sent
    for it: no token, and no response to any later `user_input`.
  */
  lemma FailedMintEndsSession(frames: seq<Frame>, url: Option<string>, model: string, prompt: string)
    requires frames != [] && frames[0].message.Object? && frames[0].message.msgType == Some("get_token")
    requires frames[0].token.None?
    ensures Transcript(frames, url) == []
    ensures Requests(frames, url, model, prompt) == []
  {
  }

  /** A minted token is sent with the configured URL. */
  lemma MintedTokenSent(f: Frame, url: Option<string>)
    requires f.message.Object? && f.message.msgType == Some("get_token") && f.token.Some?
    ensures Dispatch(f, url) == Send(TokenMsg(f.token.value, url))
  {
  }

  /** A session never sends anything after a frame that closes it. */
  lemma {:induction false} CloseEndsSession(frames: seq<Frame>, url: Option<string>, k: nat)
    requires k < |frames| && Dispatch(frames[k], url).Close?
    ensures Transcript(frames, url) == Transcript(frames[..k], url)
    decreases k
  {
    if k > 0 {
      CloseEndsSession(frames[1..], url, k - 1);
      assert frames[..k][1..] == frames[1..][..k - 1];
    }
  }
}
