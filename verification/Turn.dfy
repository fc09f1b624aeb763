/**
  One conversation turn of the text agent in the LiveKit room: the user's text
  is appended to the chat context, the language model is asked for a reply
  (streamed chunks are concatenated), a blank reply is replaced by a fixed
  fallback, the assistant message is appended and the reply is published on
  the room's data channel. When the model call fails, a fixed apology is
  published instead and no assistant message is appended; when publishing
  the reply fails, the assistant message stays in the context and the
  apology is published after it.

  The language model and the room are outside the model: the model's answer
  is an `LlmOutcome` given to the turn, and each publish appends to the
  `published` outbox when the room accepts it.
*/
module Turn {
  import opened Wrappers
  import opened Text

  datatype Role = System | User | Assistant

  /** One chat-context entry. */
  datatype Message = Message(role: Role, text: string)

  /** `chunk.choices[0].delta`: its `content`, absent or null as `None`. */
  datatype Delta = Delta(content: Option<string>)

  /** One streamed chunk; `choices` is empty when the attribute is missing or empty. */
  datatype Chunk = Chunk(choices: seq<Delta>)

  /** What the call to the language model gave back. */
  datatype LlmOutcome =
    | Streamed(chunks: seq<Chunk>)  // an asynchronous iterator of chunks
    | Complete(text: string)        // any other object, read through `str(response)`
    | Raised                        // the call or the iteration raised an exception

  const Fallback: string := "I'm not sure how to respond to that."
  const ErrorReply: string := "Sorry, I encountered an error."

  /** The text one chunk contributes: the first choice's delta content, when it is a non-empty string. */
  function ChunkText(c: Chunk): string {
    if |c.choices| > 0 && c.choices[0].content.Some? && c.choices[0].content.value != ""
    then c.choices[0].content.value
    else ""
  }

  /** The in-order concatenation of the chunks' contributions. */
  function StreamedText(chunks: seq<Chunk>): string {
    if chunks == [] then "" else StreamedText(chunks[..|chunks| - 1]) + ChunkText(chunks[|chunks| - 1])
  }

  /** Splitting a stream anywhere and concatenating the two parts' texts gives the whole text. */
  lemma {:induction false} StreamedTextAppend(a: seq<Chunk>, b: seq<Chunk>)
    ensures StreamedText(a + b) == StreamedText(a) + StreamedText(b)
    decreases |b|
  {
    if b != [] {
      var n := |b| - 1;
      assert (a + b)[..|a + b| - 1] == a + b[..n];
      StreamedTextAppend(a, b[..n]);
    } else {
      assert a + b == a;
    }
  }

  /** Chunks without a usable content add nothing to the text. */
  lemma {:induction false} StreamedTextSkipsEmpty(chunks: seq<Chunk>)
    requires forall i :: 0 <= i < |chunks| ==> ChunkText(chunks[i]) == ""
    ensures StreamedText(chunks) == ""
  {
    if chunks != [] {
      StreamedTextSkipsEmpty(chunks[..|chunks| - 1]);
    }
  }

  /** `async for chunk in response: ...`: concatenate every chunk's content in arrival order. */
  method AccumulateStream(chunks: seq<Chunk>) returns (full: string)
    ensures full == StreamedText(chunks)
  {
    full := "";
    var i := 0;
    while i < |chunks|
      invariant 0 <= i <= |chunks|
      invariant full == StreamedText(chunks[..i])
    {
      var chunk := chunks[i];
      if |chunk.choices| > 0 {
        var delta := chunk.choices[0];
        if delta.content.Some? && delta.content.value != "" {
          full := full + delta.content.value;
        }
      }
      assert chunks[..i + 1][..i] == chunks[..i];
      i := i + 1;
    }
    assert chunks[..|chunks|] == chunks;
  }

  /** The raw reply text before the blank check, or `None` when the call failed. */
  function RawReply(outcome: LlmOutcome): Option<string> {
    match outcome
    case Streamed(chunks) => Some(StreamedText(chunks))
    case Complete(text) => Some(text)
    case Raised => None
  }

  /** Asking the model and reading its answer: the streamed text, the plain text, or the failure. */
  method CallModel(outcome: LlmOutcome) returns (raw: Option<string>)
    ensures raw == RawReply(outcome)
  {
    match outcome {
      case Raised =>
        raw := None;
      case Streamed(chunks) =>
        var full := AccumulateStream(chunks);
        raw := Some(full);
      case Complete(t) =>
        raw := Some(t);
    }
  }

  /** Blank replies become the fallback; any other reply is kept as it is. */
  function WithFallback(raw: string): (r: string)
    ensures !IsBlank(r)
    ensures !IsBlank(raw) ==> r == raw
    ensures IsBlank(raw) ==> r == Fallback
  {
    if Strip(raw) == "" then
      assert Fallback[0] == 'I';
      Fallback
    else raw
  }

  /** The assistant text of a turn, or `None` when the turn fails. */
  function Reply(outcome: LlmOutcome): Option<string> {
    match RawReply(outcome)
    case Some(raw) => Some(WithFallback(raw))
    case None => None
  }

  /** The chat context after one turn with user text `text`. */
  function AfterTurn(h: seq<Message>, text: string, outcome: LlmOutcome): seq<Message> {
    h + [Message(User, text)]
      + (match Reply(outcome) case Some(r) => [Message(Assistant, r)] case None => [])
  }

  /**
    The payloads one turn publishes. `replyDelivered` says whether the room
    accepts the reply, `apologyDelivered` whether it accepts the apology; a
    failed publish raises, so a failed reply publish leads to the apology and
    a failed apology publish leaves the handler.
  */
  function TurnPublishes(outcome: LlmOutcome, replyDelivered: bool, apologyDelivered: bool): seq<string> {
    match Reply(outcome)
    case Some(r) =>
      if replyDelivered then [r]
      else if apologyDelivered then [ErrorReply]
      else []
    case None => if apologyDelivered then [ErrorReply] else []
  }

  class TextAgent {
    /** The ordered chat context: the system prompt first, then the turns. */
    var chatCtx: seq<Message>
    /** Every payload published on the room's data channel, in order. */
    var published: seq<string>

    /** The system prompt text itself is not part of the model; it is a parameter. */
    constructor (systemPrompt: string)
      ensures chatCtx == [Message(System, systemPrompt)]
      ensures published == []
    {
      chatCtx := [Message(System, systemPrompt)];
      published := [];
    }

    /**
      One data packet of user text. `outcome` is what the language model
      gives back; `replyDelivered` and `apologyDelivered` say whether the room
      accepts the reply and the apology when they are published.
    */
    method OnDataReceived(text: string, outcome: LlmOutcome, replyDelivered: bool, apologyDelivered: bool)
      modifies this
      ensures chatCtx == AfterTurn(old(chatCtx), text, outcome)
      ensures published == old(published) + TurnPublishes(outcome, replyDelivered, apologyDelivered)
    {
      chatCtx := chatCtx + [Message(User, text)];
      var raw := CallModel(outcome);
      if raw.None? {
        // the model call raised: publish the apology only
        if apologyDelivered {
          published := published + [ErrorReply];
        }
        return;
      }
      var fullResponse := raw.value;
      if Strip(fullResponse) == "" {
        fullResponse := Fallback;
      }
      assert fullResponse == WithFallback(raw.value);
      chatCtx := chatCtx + [Message(Assistant, fullResponse)];
      if replyDelivered {
        published := published + [fullResponse];
      } else if apologyDelivered {
        // publishing the reply raised after the assistant message was recorded
        published := published + [ErrorReply];
      }
    }
  }

  // ---------------------------------------------------------------------
  // Properties of a turn
  // ---------------------------------------------------------------------

  /** A turn only appends: the old context is a prefix, followed by the user's message. */
  lemma TurnAppendsUserFirst(h: seq<Message>, text: string, outcome: LlmOutcome)
    ensures var h' := AfterTurn(h, text, outcome);
      && h < h'
      && h'[|h|] == Message(User, text)
      && |h'| == |h| + (if outcome.Raised? then 1 else 2)
  {
  }

  /**
    When the model call fails the context ends with the user's message, and
    the apology is all that is published, whatever the reply's fate would
    have been.
  */
  lemma FailedTurnEndsWithUser(h: seq<Message>, text: string, replyDelivered: bool, apologyDelivered: bool)
    ensures AfterTurn(h, text, Raised) == h + [Message(User, text)]
    ensures TurnPublishes(Raised, replyDelivered, apologyDelivered) == (if apologyDelivered then [ErrorReply] else [])
  {
  }

  /**
    When the model answers and the reply is delivered, the appended
    assistant message is exactly the one published payload, and it is never
    blank.
  */
  lemma SuccessfulTurnRecordsPublished(h: seq<Message>, text: string, outcome: LlmOutcome, apologyDelivered: bool)
    requires !outcome.Raised?
    ensures var h' := AfterTurn(h, text, outcome);
      var sent := TurnPublishes(outcome, true, apologyDelivered);
      && |sent| == 1
      && h'[|h'| - 1] == Message(Assistant, sent[0])
      && !IsBlank(sent[0])
  {
  }

  /**
    When the model answers but publishing the reply fails, the assistant
    message is still recorded, while the room receives the apology (or
    nothing, when the apology fails too).
  */
  lemma UndeliveredReplyStaysRecorded(h: seq<Message>, text: string, outcome: LlmOutcome, apologyDelivered: bool)
    requires !outcome.Raised?
    ensures var h' := AfterTurn(h, text, outcome);
      && h'[|h'| - 1].role == Assistant
      && h'[|h'| - 1].text == Reply(outcome).value
      && TurnPublishes(outcome, false, apologyDelivered) == (if apologyDelivered then [ErrorReply] else [])
  {
  }

  /** A streamed reply is the concatenation of the chunk contents, unless that is blank. */
  lemma StreamedReplyIsConcatenation(chunks: seq<Chunk>)
    ensures !IsBlank(StreamedText(chunks)) ==> Reply(Streamed(chunks)) == Some(StreamedText(chunks))
    ensures IsBlank(StreamedText(chunks)) ==> Reply(Streamed(chunks)) == Some(Fallback)
  {
  }

  /** The context after a sequence of turns, one `(text, outcome)` pair per data packet. */
  function AfterTurns(h: seq<Message>, turns: seq<(string, LlmOutcome)>): seq<Message>
    decreases |turns|
  {
    if turns == [] then h
    else AfterTurns(AfterTurn(h, turns[0].0, turns[0].1), turns[1..])
  }

  /** The roles go user, assistant, user, assistant, ... and end with an assistant message. */
  ghost predicate Alternates(s: seq<Message>)
    decreases |s|
  {
    s == [] || (|s| >= 2 && s[0].role == User && s[1].role == Assistant && Alternates(s[2..]))
  }

  lemma {:induction false} AlternatesExtend(s: seq<Message>, u: Message, a: Message)
    requires Alternates(s) && u.role == User && a.role == Assistant
    ensures Alternates(s + [u, a])
    decreases |s|
  {
    if s != [] {
      AlternatesExtend(s[2..], u, a);
      assert (s + [u, a])[2..] == s[2..] + [u, a];
    } else {
      assert (s + [u, a])[2..] == [];
    }
  }

  /**
    When no turn fails, the conversation after the system prompt strictly
    alternates user and assistant messages.
  */
  lemma {:induction false} SuccessfulTurnsAlternate(h: seq<Message>, from: nat, turns: seq<(string, LlmOutcome)>)
    requires from <= |h| && Alternates(h[from..])
    requires forall k :: 0 <= k < |turns| ==> !turns[k].1.Raised?
    ensures from <= |AfterTurns(h, turns)| && Alternates(AfterTurns(h, turns)[from..])
    decreases |turns|
  {
    if turns != [] {
      var u := Message(User, turns[0].0);
      var a := Message(Assistant, Reply(turns[0].1).value);
      var h1 := AfterTurn(h, turns[0].0, turns[0].1);
      SuccessfulTurnAppends(h, turns[0].0, turns[0].1);
      assert h1[from..] == h[from..] + [u, a];
      AlternatesExtend(h[from..], u, a);
      var rest := turns[1..];
      assert forall k :: 0 <= k < |rest| ==> rest[k] == turns[k + 1];
      SuccessfulTurnsAlternate(h1, from, rest);
    }
  }

  /** A turn that does not fail appends the user message and then the assistant's reply. */
  lemma SuccessfulTurnAppends(h: seq<Message>, text: string, outcome: LlmOutcome)
    requires !outcome.Raised?
    ensures Reply(outcome).Some?
    ensures AfterTurn(h, text, outcome) == h + [Message(User, text), Message(Assistant, Reply(outcome).value)]
  {
  }

  /** A failed turn followed by any other turn leaves two user messages side by side. */
  lemma FailureBreaksAlternation(h: seq<Message>, t1: string, t2: string, outcome: LlmOutcome)
    ensures var h' := AfterTurns(h, [(t1, Raised), (t2, outcome)]);
      |h'| >= |h| + 2 && h'[|h|].role == User && h'[|h| + 1].role == User
  {
    var h1 := AfterTurn(h, t1, Raised);
    assert [(t1, Raised), (t2, outcome)][1..] == [(t2, outcome)];
    assert AfterTurns(h, [(t1, Raised), (t2, outcome)]) == AfterTurns(h1, [(t2, outcome)]);
    assert AfterTurns(h1, [(t2, outcome)]) == AfterTurn(h1, t2, outcome);
  }
}
