/**
 * The text-generation service of the chat client (services/sykoService.ts):
 * the product's model names mapped to backend models, the conversation split
 * into prior turns and the live message, and the loop that forwards streamed
 * chunks and accumulates the reply.
 *
 * The backend itself is not modelled: its stream is given as the sequence of
 * chunk texts it delivers (`None` for a chunk without text) and how it ends.
 */
module SykoService {
  import opened Types

  /** The backend model used for any product model the table does not name. */
  const DefaultModel: string := "gemini-3-flash-preview"

  /** The product's model ids and the backend models behind them. */
  const ModelMapping: map<string, string> := map[
    "syko-v1-alpha" := "gemini-3-flash-preview",
    "syko-v1-pro" := "gemini-3-pro-preview"
  ]

  /** The fixed system instruction every chat is created with. */
  const SystemInstruction: string :=
    "\nYou are SykoLLM, an advanced AI model currently in ALPHA stage. \n"
    + "You are helpful, concise, and intelligent. \n"
    + "You prefer a modern, somewhat technical but accessible tone. \n"
    + "Do not mention being made by Google unless explicitly asked about your underlying architecture. \n"
    + "Focus on solving the user's problem efficiently.\n"

  /**
   * `MODEL_MAPPING[modelId] || DefaultModel`: the alpha model runs on the flash
   * backend, the pro model on the pro backend, and every other id falls back to
   * the flash backend. The name is never empty.
   */
  function RealModelName(modelId: string): (name: string)
    ensures modelId == "syko-v1-alpha" ==> name == "gemini-3-flash-preview"
    ensures modelId == "syko-v1-pro" ==> name == "gemini-3-pro-preview"
    ensures modelId != "syko-v1-alpha" && modelId != "syko-v1-pro" ==> name == DefaultModel
    ensures name != ""
  {
    if modelId in ModelMapping && ModelMapping[modelId] != "" then ModelMapping[modelId] else DefaultModel
  }

  /** One turn of conversation as the backend takes it: who spoke and what was said. */
  datatype Turn = Turn(role: Role, text: string)

  /** A whole transcript as backend turns, in order. */
  function Turns(msgs: seq<Message>): (turns: seq<Turn>)
    ensures |turns| == |msgs|
    ensures forall i :: 0 <= i < |msgs| ==> turns[i] == Turn(msgs[i].role, msgs[i].content)
  {
    seq(|msgs|, i requires 0 <= i < |msgs| => Turn(msgs[i].role, msgs[i].content))
  }

  /**
   * `history.slice(0, -1).map(...)`: the context the chat is created with is
   * every message but the last, in order, each with its role and content; an
   * empty history gives no context.
   */
  function PriorHistory(history: seq<Message>): (prior: seq<Turn>)
    ensures |prior| == if history == [] then 0 else |history| - 1
    ensures forall i :: 0 <= i < |prior| ==> prior[i] == Turn(history[i].role, history[i].content)
  {
    if history == [] then [] else Turns(history[..|history| - 1])
  }

  /**
   * Nothing of the conversation is lost or reordered: the prior turns followed
   * by the live last message are the whole history.
   */
  lemma PriorThenLive(history: seq<Message>)
    requires history != []
    ensures PriorHistory(history) + [Turn(history[|history| - 1].role, history[|history| - 1].content)] == Turns(history)
  {
    var whole := PriorHistory(history) + [Turn(history[|history| - 1].role, history[|history| - 1].content)];
    assert |whole| == |Turns(history)|;
    forall i | 0 <= i < |whole| ensures whole[i] == Turns(history)[i] {
      if i < |history| - 1 {
        assert whole[i] == PriorHistory(history)[i];
      }
    }
  }

  /** The message just appended to a transcript is the one left out of the context. */
  lemma PriorOfAppended(msgs: seq<Message>, latest: Message)
    ensures PriorHistory(msgs + [latest]) == Turns(msgs)
  {
    var prior := PriorHistory(msgs + [latest]);
    assert |prior| == |msgs|;
    forall i | 0 <= i < |msgs| ensures prior[i] == Turns(msgs)[i] {
      assert (msgs + [latest])[i] == msgs[i];
    }
  }

  /** A chunk that `if (text)` lets through: one with text that is not empty. */
  predicate HasText(chunk: Option<string>)
  {
    chunk.Some? && chunk.value != ""
  }

  /**
   * The texts handed to `onChunk`, in receipt order: the text of every chunk
   * that has some, and nothing for the others. None of them is empty and there
   * are no more of them than chunks.
   */
  function Forwarded(chunks: seq<Option<string>>): (texts: seq<string>)
    ensures |texts| <= |chunks|
    ensures forall k :: 0 <= k < |texts| ==> texts[k] != ""
  {
    if chunks == [] then []
    else
      var last := chunks[|chunks| - 1];
      Forwarded(chunks[..|chunks| - 1]) + (if HasText(last) then [last.value] else [])
  }

  /** The texts in order, joined. */
  function Concat(texts: seq<string>): string
  {
    if texts == [] then "" else Concat(texts[..|texts| - 1]) + texts[|texts| - 1]
  }

  /** The text a chunk carries, the empty string when it has none. */
  function TextOf(chunk: Option<string>): string
  {
    if chunk.Some? then chunk.value else ""
  }

  /** Every chunk's text, textless chunks as empty strings, joined in receipt order. */
  function AllText(chunks: seq<Option<string>>): string
  {
    if chunks == [] then "" else AllText(chunks[..|chunks| - 1]) + TextOf(chunks[|chunks| - 1])
  }

  /** Forwarding keeps receipt order: the texts of a later batch follow those of an earlier one. */
  lemma {:induction false} ForwardedAppend(a: seq<Option<string>>, b: seq<Option<string>>)
    ensures Forwarded(a + b) == Forwarded(a) + Forwarded(b)
  {
    if b == [] {
      assert a + b == a;
    } else {
      var front := b[..|b| - 1];
      assert (a + b)[..|a + b| - 1] == a + front;
      assert (a + b)[|a + b| - 1] == b[|b| - 1];
      ForwardedAppend(a, front);
    }
  }

  /** Joining distributes over concatenation of the lists of texts. */
  lemma {:induction false} ConcatAppend(a: seq<string>, b: seq<string>)
    ensures Concat(a + b) == Concat(a) + Concat(b)
  {
    if b == [] {
      assert a + b == a;
    } else {
      var front := b[..|b| - 1];
      assert (a + b)[..|a + b| - 1] == a + front;
      assert (a + b)[|a + b| - 1] == b[|b| - 1];
      ConcatAppend(a, front);
    }
  }

  /**
   * Skipping textless and empty chunks loses no text: the forwarded texts join
   * to exactly the text of the whole stream.
   */
  lemma {:induction false} ForwardedLosesNothing(chunks: seq<Option<string>>)
    ensures Concat(Forwarded(chunks)) == AllText(chunks)
  {
    if chunks != [] {
      var front, last := chunks[..|chunks| - 1], chunks[|chunks| - 1];
      ForwardedLosesNothing(front);
      var extra := if HasText(last) then [last.value] else [];
      ConcatAppend(Forwarded(front), extra);
      if HasText(last) {
        assert Concat(extra) == Concat([]) + last.value;
      } else {
        assert TextOf(last) == "";
      }
    }
  }

  /**
   * The `for await` loop of `streamResponse`: every chunk with text is handed to
   * `onChunk` (returned here as the list of texts it was called with, in call
   * order) and added to the accumulated reply, which is returned.
   */
  method ForwardChunks(chunks: seq<Option<string>>) returns (fullText: string, forwarded: seq<string>)
    ensures forwarded == Forwarded(chunks)
    ensures fullText == Concat(forwarded)
  {
    fullText, forwarded := "", [];
    var i := 0;
    while i < |chunks|
      invariant 0 <= i <= |chunks|
      invariant forwarded == Forwarded(chunks[..i])
      invariant fullText == Concat(forwarded)
    {
      var text := chunks[i];
      assert chunks[..i + 1][..i] == chunks[..i];
      if text.Some? && text.value != "" {
        fullText := fullText + text.value;
        ConcatAppend(forwarded, [text.value]);
        forwarded := forwarded + [text.value];
      }
      i := i + 1;
    }
    assert chunks[..i] == chunks;
  }

  /** How the backend's stream ended. */
  datatype StreamEnd = Completed | Failed

  /** Why `streamResponse` rejected: no API key, no message to send, or the stream's error. */
  datatype ServiceError = MissingApiKey | NoLastMessage | StreamFailed

  /** A backend client, made once with the API key. */
  datatype Client = Client(apiKey: string)

  /** What is sent to the backend: the model, the system instruction, the context and the live message. */
  datatype Request = Request(model: string, systemInstruction: string, history: seq<Turn>, message: string)

  /** The module-level client slot `aiClient`, filled on first use. */
  class ClientCache {
    var aiClient: Option<Client>

    constructor ()
      ensures aiClient == None
    {
      aiClient := None;
    }

    /**
     * `getClient`: the cached client if there is one; otherwise a missing or
     * empty `apiKey` (the environment's API_KEY) is an error that leaves the
     * slot empty, and a present key makes the client and caches it.
     */
    method GetClient(apiKey: Option<string>) returns (r: Result<Client, ServiceError>)
      modifies this
      ensures old(aiClient).Some? ==> r == Success(old(aiClient).value) && aiClient == old(aiClient)
      ensures old(aiClient).None? && !Truthy(apiKey) ==> r == Failure(MissingApiKey) && aiClient == None
      ensures old(aiClient).None? && Truthy(apiKey) ==>
        r == Success(Client(apiKey.value)) && aiClient == Some(Client(apiKey.value))
    {
      if aiClient.None? {
        if !Truthy(apiKey) {
          return Failure(MissingApiKey);
        }
        aiClient := Some(Client(apiKey.value));
      }
      r := Success(aiClient.value);
    }
  }

  /**
   * `streamResponse`: a missing API key fails before any request; an empty
   * history fails before any request, since there is no last message to send;
   * otherwise the request goes out with the mapped model, the prior turns and
   * the last message's content, every chunk with text is forwarded in order,
   * and the reply is their concatenation when the stream completes, or the
   * stream's error when it fails (after forwarding what arrived before).
   */
  method StreamResponse(cache: ClientCache, modelId: string, history: seq<Message>, apiKey: Option<string>,
                        chunks: seq<Option<string>>, end: StreamEnd)
    returns (request: Option<Request>, forwarded: seq<string>, result: Result<string, ServiceError>)
    modifies cache
    ensures old(cache.aiClient).None? && !Truthy(apiKey) ==>
      request == None && forwarded == [] && result == Failure(MissingApiKey)
    ensures (old(cache.aiClient).Some? || Truthy(apiKey)) && history == [] ==>
      request == None && forwarded == [] && result == Failure(NoLastMessage)
    ensures (old(cache.aiClient).Some? || Truthy(apiKey)) && history != [] ==>
      && request == Some(Request(RealModelName(modelId), SystemInstruction, PriorHistory(history), history[|history| - 1].content))
      && forwarded == Forwarded(chunks)
      && result == (if end == Completed then Success(Concat(forwarded)) else Failure(StreamFailed))
    ensures old(cache.aiClient).Some? ==> cache.aiClient == old(cache.aiClient)
    ensures old(cache.aiClient).None? ==>
      cache.aiClient == (if Truthy(apiKey) then Some(Client(apiKey.value)) else None)
  {
    var client := cache.GetClient(apiKey);
    if client.Failure? {
      return None, [], Failure(client.error);
    }
    var realModelName := RealModelName(modelId);
    var previousHistory := PriorHistory(history);
    if history == [] {
      return None, [], Failure(NoLastMessage);
    }
    var lastMessage := history[|history| - 1];
    request := Some(Request(realModelName, SystemInstruction, previousHistory, lastMessage.content));
    var fullText;
    fullText, forwarded := ForwardChunks(chunks);
    if end == Failed {
      return request, forwarded, Failure(StreamFailed);
    }
    result := Success(fullText);
  }
}
