/** The chat hook (`useChat` in src/hooks/useApi.js): a conversation history,
    the response being streamed, and one send that accumulates the streamed
    chunks.  The provider stream is given as the chunks it yields and the way
    it ends. */
module Chat {
  import opened Js
  import opened Lifecycle

  const DEFAULT_CHAT_MODEL: string := "gpt-4o-mini"
  const ABORT_ERROR: string := "AbortError"

  datatype Role = System | User | Assistant

  datatype Message = Message(role: Role, content: string)

  /** The body handed to the streaming completion call. */
  datatype ChatRequest = ChatRequest(model: string, messages: seq<Message>)

  /** What the provider stream does: the chunks it yields, then either a
      normal end (`None`) or the error it throws. */
  datatype ChatStream = ChatStream(chunks: seq<string>, end: Option<JsError>)

  /** How `send` settles: it resolves (with the full response, or with
      `undefined`), or it rethrows. */
  datatype SendResult = Returned(response: Option<string>) | Rethrown(error: JsError)

  /** The response after the chunks `chunks`, appended one by one. */
  function Concat(chunks: seq<string>): string
  {
    if chunks == [] then "" else Concat(chunks[..|chunks| - 1]) + chunks[|chunks| - 1]
  }

  /** Accumulating two runs of chunks is concatenating their responses. */
  lemma {:induction false} ConcatAppend(a: seq<string>, b: seq<string>)
    ensures Concat(a + b) == Concat(a) + Concat(b)
    decreases |b|
  {
    if b != [] {
      var b' := b[..|b| - 1];
      assert (a + b)[..|a + b| - 1] == a + b';
      ConcatAppend(a, b');
    } else {
      assert a + b == a;
    }
  }

  /** Accumulating from the back agrees with accumulating from the front: the
      response begins with the first chunk. */
  lemma {:induction false} ConcatFront(chunks: seq<string>)
    requires chunks != []
    ensures Concat(chunks) == chunks[0] + Concat(chunks[1..])
  {
    ConcatAppend([chunks[0]], chunks[1..]);
    assert [chunks[0]] + chunks[1..] == chunks;
    assert Concat([chunks[0]]) == Concat([]) + chunks[0];
  }

  /** The messages sent: the system prompt when one is set, the history, and
      the new user message. */
  function RequestMessages(systemPrompt: string, history: seq<Message>, content: string): (r: seq<Message>)
    ensures var offset := if systemPrompt != "" then 1 else 0;
            && |r| == offset + |history| + 1
            && (systemPrompt != "" ==> r[0] == Message(System, systemPrompt))
            && (forall i :: 0 <= i < |history| ==> r[offset + i] == history[i])
            && r[|r| - 1] == Message(User, content)
  {
    (if systemPrompt != "" then [Message(System, systemPrompt)] else []) + history + [Message(User, content)]
  }

  class ChatSession {
    const life: ApiState
    /** `options.systemPrompt`; empty when none is set. */
    const systemPrompt: string
    /** `options.model || 'gpt-4o-mini'` */
    const model: string
    var messages: seq<Message>
    var currentResponse: string
    /** Whether an abort controller is held. */
    var controllerLive: bool

    constructor (systemPrompt: string, model: string)
      ensures fresh(life) && life.Coherent() && life.status == Idle
      ensures this.systemPrompt == systemPrompt
      ensures this.model == if model != "" then model else DEFAULT_CHAT_MODEL
      ensures messages == [] && currentResponse == "" && !controllerLive
    {
      life := new ApiState();
      this.systemPrompt := systemPrompt;
      this.model := if model != "" then model else DEFAULT_CHAT_MODEL;
      messages := [];
      currentResponse := "";
      controllerLive := false;
    }

    /** `send(content, stream)`.  Only a streamed send talks to the provider;
        one with `stream` false resolves to `undefined` and leaves the task
        loading.  A completed stream appends the exchange to the history; an
        abort resolves to `undefined` and leaves the task streaming; any other
        error is recorded and rethrown. */
    method Send(content: string, stream: bool, reply: ChatStream) returns (r: SendResult, request: Option<ChatRequest>)
      modifies this, life
      ensures request == if stream then Some(ChatRequest(model, RequestMessages(systemPrompt, old(messages), content))) else None
      ensures life.Coherent()
      ensures !stream ==>
                && r == Returned(None) && messages == old(messages) && currentResponse == ""
                && life.loading && life.status == Running && life.error == old(life.error)
                && controllerLive == old(controllerLive)
      ensures stream ==> controllerLive && currentResponse == Concat(reply.chunks)
      ensures stream && reply.end.None? ==>
                && r == Returned(Some(Concat(reply.chunks)))
                && messages == old(messages) + [Message(User, content), Message(Assistant, Concat(reply.chunks))]
                && life.status == Success && !life.loading && life.error == None
      ensures stream && reply.end.Some? && reply.end.value.name != ABORT_ERROR ==>
                && r == Rethrown(reply.end.value) && messages == old(messages)
                && life.status == Failed && !life.loading && life.error == reply.end
      ensures stream && reply.end.Some? && reply.end.value.name == ABORT_ERROR ==>
                && r == Returned(None) && messages == old(messages)
                && life.status == Streaming && life.loading && life.error == old(life.error)
    {
      life.SetLoading(true);
      currentResponse := "";
      var msgList := RequestMessages(systemPrompt, messages, content);
      if !stream {
        return Returned(None), None;
      }
      life.Enter(Streaming);
      controllerLive := true;
      request := Some(ChatRequest(model, msgList));
      var full := "";
      var i := 0;
      while i < |reply.chunks|
        invariant 0 <= i <= |reply.chunks|
        invariant full == Concat(reply.chunks[..i]) && currentResponse == full
        invariant messages == old(messages) && controllerLive
        invariant life.loading && life.status == Streaming && life.error == old(life.error)
      {
        assert reply.chunks[..i + 1][..i] == reply.chunks[..i];
        full := full + reply.chunks[i];
        currentResponse := full;
        i := i + 1;
      }
      assert reply.chunks[..i] == reply.chunks;
      match reply.end {
        case None =>
          messages := messages + [Message(User, content), Message(Assistant, full)];
          life.SetSuccess();
          r := Returned(Some(full));
        case Some(e) =>
          if e.name != ABORT_ERROR {
            life.SetError(e);
            r := Rethrown(e);
          } else {
            r := Returned(None);
          }
      }
    }

    /** `stop()`: aborts and drops the controller when one is held. */
    method Stop() returns (aborted: bool)
      modifies this`controllerLive
      ensures aborted == old(controllerLive) && !controllerLive
    {
      aborted := controllerLive;
      controllerLive := false;
    }

    /** `clear()`: empties the history and the response and resets the task. */
    method Clear()
      modifies this, life
      ensures messages == [] && currentResponse == "" && controllerLive == old(controllerLive)
      ensures life.loading == false && life.error == None && life.status == Idle && life.Coherent()
    {
      messages := [];
      currentResponse := "";
      life.Reset();
    }
  }
}
