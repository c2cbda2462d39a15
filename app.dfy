/**
 * The chat client's component state and its handlers (App.tsx): the session
 * registry, the binding of the active transcript to a session, the transcript,
 * the typing indicator, the input box, the selected model and the theme. Each
 * `setState` is a sequential assignment; each handler is a method; the
 * auto-sync effect is a method the driver runs after each rendered change of the
 * transcript or binding, and a streamed reply is split into its events.
 */
module App {
  import opened Types
  import Text
  import Registry
  import Transcript
  import SykoService

  /** The text of the message shown when a reply fails. */
  const FailureText: string := "Connection to SykoLLM Alpha failed. Please check your network or try again."

  /** The model selected at start: the first entry of the model list. */
  const InitialModel: string := "syko-v1-alpha"

  /** The other theme: dark becomes light and light becomes dark. */
  function Toggled(t: Theme): (r: Theme)
    ensures r != t
  {
    if t == Dark then Light else Dark
  }

  /** Toggling twice restores the theme. */
  lemma ToggledTwice(t: Theme)
    ensures Toggled(Toggled(t)) == t
  {
  }

  class ChatApp {
    var theme: Theme
    var input: string
    var currentModel: string
    var sessions: seq<ChatSession>
    var currentSessionId: Option<string>
    var messages: seq<Message>
    var isTyping: bool

    /**
     * The auto-sync effect has run: when the transcript is bound and not empty,
     * every session with the bound id holds exactly the transcript.
     */
    ghost predicate Synced()
      reads this
    {
      Truthy(currentSessionId) && messages != [] ==>
        forall i :: 0 <= i < |sessions| && sessions[i].id == currentSessionId.value ==> sessions[i].messages == messages
    }

    /** The state on first render: dark theme, first model, no sessions, an empty unbound transcript. */
    constructor ()
      ensures theme == Dark && input == "" && currentModel == InitialModel
      ensures sessions == [] && currentSessionId == None && messages == [] && !isTyping
      ensures Synced()
    {
      theme := Dark;
      input := "";
      currentModel := InitialModel;
      sessions := [];
      currentSessionId := None;
      messages := [];
      isTyping := false;
    }

    /** `toggleTheme` (App.tsx:65-70): dark and light swap. */
    method ToggleTheme()
      modifies this`theme
      ensures theme == Toggled(old(theme))
    {
      theme := Toggled(theme);
    }

    /** The input box's change handler (App.tsx:364): the pending input becomes `text`. */
    method SetInput(text: string)
      modifies this`input
      ensures input == text
    {
      input := text;
    }

    /** The model selector's handler (App.tsx:304): later replies use `modelId`. */
    method SelectModel(modelId: string)
      modifies this`currentModel
      ensures currentModel == modelId
    {
      currentModel := modelId;
    }

    /**
     * `createNewSession` (App.tsx:72-77): the transcript is emptied and unbound;
     * no session is created and the registry is untouched.
     */
    method CreateNewSession()
      modifies this`messages, this`currentSessionId
      ensures messages == [] && currentSessionId == None
    {
      messages := [];
      currentSessionId := None;
    }

    /**
     * `saveCurrentSession` (App.tsx:79-101), with `captured` the binding its
     * closure saw and `newId`, `createdAt` the clock readings it takes. The
     * registry becomes the one `Registry.Save` describes, and the transcript is
     * bound to a session the save created; a bound save leaves the binding.
     */
    method SaveCurrentSession(updated: seq<Message>, captured: Option<string>, newId: string, createdAt: int)
      modifies this`sessions, this`currentSessionId
      ensures var r := Registry.Save(old(sessions), captured, updated, newId, createdAt);
              && sessions == r.sessions
              && currentSessionId == (if r.created.Some? then r.created else old(currentSessionId))
    {
      if updated == [] {
        return;
      }
      var title := Text.DeriveTitle(updated[0].content);
      if !Truthy(captured) {
        var newSession := ChatSession(newId, title, updated, createdAt);
        sessions := [newSession] + sessions;
        currentSessionId := Some(newId);
      } else {
        sessions := Registry.WithSaved(sessions, captured.value, updated, title);
      }
    }

    /**
     * `loadSession` (App.tsx:103-107): the transcript becomes the session's
     * stored messages and is bound to its id.
     */
    method LoadSession(session: ChatSession)
      modifies this`messages, this`currentSessionId
      ensures messages == session.messages && currentSessionId == Some(session.id)
    {
      messages := session.messages;
      currentSessionId := Some(session.id);
    }

    /**
     * `deleteSession` (App.tsx:109-115): every session with `id` leaves the
     * registry. If the transcript was bound to `id` it becomes empty and
     * unbound; otherwise transcript and binding are untouched.
     */
    method DeleteSession(id: string)
      modifies this`sessions, this`messages, this`currentSessionId
      ensures sessions == Registry.Without(old(sessions), id)
      ensures old(currentSessionId) == Some(id) ==> messages == [] && currentSessionId == None
      ensures old(currentSessionId) != Some(id) ==>
        messages == old(messages) && currentSessionId == old(currentSessionId)
    {
      sessions := Registry.Without(sessions, id);
      if currentSessionId == Some(id) {
        CreateNewSession();
      }
    }

    /**
     * The auto-sync effect (App.tsx:193-199): when the transcript is bound and
     * not empty, every session with the bound id takes the transcript and no
     * other session changes; otherwise the registry is untouched.
     */
    method SyncEffect()
      modifies this`sessions
      ensures Truthy(currentSessionId) && messages != [] ==>
        sessions == Registry.WithMessages(old(sessions), currentSessionId.value, messages)
      ensures !(Truthy(currentSessionId) && messages != []) ==> sessions == old(sessions)
      ensures Synced()
    {
      if Truthy(currentSessionId) && messages != [] {
        sessions := Registry.WithMessages(sessions, currentSessionId.value, messages);
      }
    }

    /**
     * The synchronous start of `handleSubmit` (App.tsx:117-135): nothing happens
     * when the trimmed input is empty or a reply is in progress. Otherwise one
     * user message holding the trimmed input is appended, the input is cleared,
     * the typing indicator is set, and the new transcript is saved with the
     * binding as it was at submit time. `newMessages` is that transcript.
     */
    method Submit(userId: string, now: int, newSessionId: string, createdAt: int)
      returns (started: bool, newMessages: seq<Message>)
      modifies this`messages, this`input, this`isTyping, this`sessions, this`currentSessionId
      ensures started == (Text.Trim(old(input)) != "" && !old(isTyping))
      ensures !started ==>
        && messages == old(messages) && input == old(input) && isTyping == old(isTyping)
        && sessions == old(sessions) && currentSessionId == old(currentSessionId)
      ensures started ==>
        && newMessages == old(messages) + [Message(userId, User, Text.Trim(old(input)), now, false)]
        && messages == newMessages && input == "" && isTyping
        && var r := Registry.Save(old(sessions), old(currentSessionId), newMessages, newSessionId, createdAt);
           && sessions == r.sessions
           && currentSessionId == (if r.created.Some? then r.created else old(currentSessionId))
    {
      newMessages := messages;
      if Text.Trim(input) == "" || isTyping {
        return false, newMessages;
      }
      var captured := currentSessionId;
      var userMsg := Message(userId, User, Text.Trim(input), now, false);
      newMessages := messages + [userMsg];
      messages := newMessages;
      input := "";
      isTyping := true;
      SaveCurrentSession(newMessages, captured, newSessionId, createdAt);
      started := true;
    }

    /** The optimistic reply (App.tsx:139-147): an empty model message with id `aiId` is appended. */
    method BeginReply(aiId: string, now: int)
      modifies this`messages
      ensures messages == old(messages) + [Message(aiId, Model, "", now, false)]
    {
      messages := messages + [Message(aiId, Model, "", now, false)];
    }

    /**
     * `onChunk` (App.tsx:149-155): `chunk` is appended to the content of the
     * messages whose id is `aiId`; the transcript is otherwise unchanged.
     */
    method ApplyChunk(aiId: string, chunk: string)
      modifies this`messages
      ensures messages == Transcript.AppendToId(old(messages), aiId, chunk)
    {
      messages := Transcript.AppendToId(messages, aiId, chunk);
    }

    /**
     * The failure path (App.tsx:168-175): one model message flagged as an error,
     * with the fixed failure text, is appended after whatever is there.
     */
    method FailReply(errId: string, now: int)
      modifies this`messages
      ensures messages == old(messages) + [Message(errId, Model, FailureText, now, true)]
    {
      messages := messages + [Message(errId, Model, FailureText, now, true)];
    }

    /** The `finally` block (App.tsx:176-177): the typing indicator is cleared. */
    method EndReply()
      modifies this`isTyping
      ensures !isTyping
    {
      isTyping := false;
    }

    /**
     * The registry is `saved` with the auto-sync applied: when the transcript is
     * bound and not empty, the sessions with the bound id hold the transcript and
     * the registry is otherwise `saved`; else it is `saved` itself.
     */
    ghost predicate SyncedFrom(saved: seq<ChatSession>)
      reads this
    {
      if Truthy(currentSessionId) && messages != [] then
        sessions == Registry.WithMessages(saved, currentSessionId.value, messages)
      else
        sessions == saved
    }

    /**
     * The streamed part of `handleSubmit` (App.tsx:149-155): every forwarded
     * chunk is appended, in order, to the messages with id `aiId`, each
     * followed by the auto-sync. The placeholder ends up with the chunks'
     * concatenation appended, and the registry stays synced from `saved`.
     */
    method ApplyChunks(aiId: string, forwarded: seq<string>, ghost saved: seq<ChatSession>)
      requires messages != [] && SyncedFrom(saved)
      modifies this`messages, this`sessions
      ensures messages == Transcript.AppendToId(old(messages), aiId, SykoService.Concat(forwarded))
      ensures messages != [] && SyncedFrom(saved)
    {
      ghost var base := messages;
      Transcript.AppendEmpty(base, aiId);
      var i := 0;
      while i < |forwarded|
        invariant 0 <= i <= |forwarded|
        invariant messages == Transcript.AppendToId(base, aiId, SykoService.Concat(forwarded[..i]))
        invariant messages != [] && SyncedFrom(saved)
      {
        ghost var before := messages;
        ApplyChunk(aiId, forwarded[i]);
        ResyncEffect(saved, before);
        Transcript.AppendCompose(base, aiId, SykoService.Concat(forwarded[..i]), forwarded[i]);
        assert forwarded[..i + 1] == forwarded[..i] + [forwarded[i]];
        SykoService.ConcatAppend(forwarded[..i], [forwarded[i]]);
        assert SykoService.Concat([forwarded[i]]) == forwarded[i] by {
          assert [forwarded[i]][..0] == [];
        }
        i := i + 1;
      }
      assert forwarded[..i] == forwarded;
    }

    /**
     * `handleSubmit` after the user message is in (App.tsx:137-189): the
     * placeholder `aiId` is added, the stream's forwarded chunks are written
     * into it, and a failed reply adds one error message; the auto-sync follows
     * each change and the typing indicator ends off. `saved` is the registry
     * as the save of the user message left it.
     */
    method Reply(aiId: string, replyTime: int, errId: string, failTime: int,
                 forwarded: seq<string>, failed: bool, ghost saved: seq<ChatSession>)
      requires sessions == saved
      modifies this`messages, this`sessions, this`isTyping
      ensures messages == Transcript.AppendToId(old(messages) + [Message(aiId, Model, "", replyTime, false)], aiId, SykoService.Concat(forwarded))
                          + (if failed then [Message(errId, Model, FailureText, failTime, true)] else [])
      ensures messages != [] && SyncedFrom(saved) && Synced() && !isTyping
    {
      ghost var before := messages;
      BeginReply(aiId, replyTime);
      ResyncEffect(saved, before);
      ApplyChunks(aiId, forwarded, saved);
      if failed {
        before := messages;
        FailReply(errId, failTime);
        ResyncEffect(saved, before);
      }
      EndReply();
      SyncedFromIsSynced(saved);
    }

    /**
     * The auto-sync effect run after a change of a non-empty transcript whose
     * registry was synced from `saved` before the change: it is synced from
     * `saved` again, the earlier sync leaving no trace.
     */
    method ResyncEffect(ghost saved: seq<ChatSession>, ghost before: seq<Message>)
      requires messages != []
      requires sessions == saved || (Truthy(currentSessionId) && sessions == Registry.WithMessages(saved, currentSessionId.value, before))
      modifies this`sessions
      ensures SyncedFrom(saved)
    {
      SyncEffect();
      if Truthy(currentSessionId) && old(sessions) != saved {
        Registry.WithMessagesOverwrite(saved, currentSessionId.value, before, messages);
      }
    }

    /** A registry synced from anything holds the transcript in the bound session. */
    lemma SyncedFromIsSynced(saved: seq<ChatSession>)
      requires SyncedFrom(saved)
      ensures Synced()
    {
    }

    /**
     * `handleSubmit` run to the end (App.tsx:117-190), with the auto-sync effect
     * after the placeholder and after every later change of the transcript; the
     * user message is rendered together with the placeholder (one batched
     * update), so no sync runs between them. The clock readings are parameters;
     * `apiKey` is the environment's key and `chunks`, `end` the backend's
     * stream. When the submit is accepted: the request sends the trimmed input as
     * the live turn after the old transcript; the transcript is the old one, the
     * user message and the placeholder with every forwarded chunk appended in
     * order, followed by one error message exactly when the reply failed (no key
     * or a stream error); the typing indicator is off; the binding is the old
     * one or, for an unbound transcript, the created session's; and the
     * registry is the saved one with the final transcript synced into the bound
     * session. The client slot is filled on an accepted submit with a key and an
     * empty slot, and is otherwise left as it was.
     */
    method HandleSubmit(cache: SykoService.ClientCache, userId: string, submitTime: int,
                        newSessionId: string, createdAt: int, aiId: string, replyTime: int,
                        errId: string, failTime: int, apiKey: Option<string>,
                        chunks: seq<Option<string>>, end: SykoService.StreamEnd)
      returns (started: bool, request: Option<SykoService.Request>)
      modifies this`messages, this`input, this`isTyping, this`sessions, this`currentSessionId, cache
      ensures started == (Text.Trim(old(input)) != "" && !old(isTyping))
      ensures !started ==>
        && request == None
        && messages == old(messages) && input == old(input) && isTyping == old(isTyping)
        && sessions == old(sessions) && currentSessionId == old(currentSessionId)
        && cache.aiClient == old(cache.aiClient)
      ensures started ==>
        cache.aiClient == (if old(cache.aiClient).Some? then old(cache.aiClient)
                           else if Truthy(apiKey) then Some(SykoService.Client(apiKey.value)) else None)
      ensures started ==>
        var keyOk := old(cache.aiClient).Some? || Truthy(apiKey);
        var user := Message(userId, User, Text.Trim(old(input)), submitTime, false);
        var saved := Registry.Save(old(sessions), old(currentSessionId), old(messages) + [user], newSessionId, createdAt);
        && request == (if keyOk then Some(SykoService.Request(SykoService.RealModelName(old(currentModel)),
                                          SykoService.SystemInstruction, SykoService.Turns(old(messages)), user.content))
                       else None)
        && messages == Transcript.AppendToId(old(messages) + [user, Message(aiId, Model, "", replyTime, false)], aiId,
                                             if keyOk then SykoService.Concat(SykoService.Forwarded(chunks)) else "")
                       + (if !keyOk || end == SykoService.Failed then [Message(errId, Model, FailureText, failTime, true)] else [])
        && input == "" && !isTyping
        && currentSessionId == (if saved.created.Some? then saved.created else old(currentSessionId))
        && SyncedFrom(saved.sessions) && Synced()
    {
      var model := currentModel;
      ghost var oldMessages := messages;
      var newMessages;
      started, newMessages := Submit(userId, submitTime, newSessionId, createdAt);
      if !started {
        return false, None;
      }
      ghost var saved := sessions;
      ghost var user := newMessages[|newMessages| - 1];
      assert newMessages == oldMessages + [user];
      ghost var keyOk := old(cache.aiClient).Some? || Truthy(apiKey);
      var forwarded, result;
      request, forwarded, result := SykoService.StreamResponse(cache, model, newMessages, apiKey, chunks, end);
      SykoService.PriorOfAppended(oldMessages, user);
      assert request == (if keyOk then Some(SykoService.Request(SykoService.RealModelName(model),
                                     SykoService.SystemInstruction, SykoService.Turns(oldMessages), user.content))
                         else None);
      assert forwarded == (if keyOk then SykoService.Forwarded(chunks) else []);
      assert result.Failure? == (!keyOk || end == SykoService.Failed);
      ghost var text := if keyOk then SykoService.Concat(SykoService.Forwarded(chunks)) else "";
      assert SykoService.Concat(forwarded) == text;
      ghost var placeholder := Message(aiId, Model, "", replyTime, false);
      assert newMessages + [placeholder] == oldMessages + [user, placeholder];
      Reply(aiId, replyTime, errId, failTime, forwarded, result.Failure?, saved);
    }
  }

  /**
   * A first message on a fresh client: one session is created, titled with
   * the message and holding it, and the transcript is bound to it.
   */
  method FirstMessageScenario()
  {
    var app := new ChatApp();
    app.SetInput("Hello");
    assert Text.Trim("Hello") == "Hello" by {
      assert Text.LeadingSpace("Hello") == 0;
      assert Text.TrailingSpace("Hello") == 0;
    }
    var started, newMessages := app.Submit("100", 100, "101", 101);
    var user := Message("100", User, "Hello", 100, false);
    assert started && app.messages == [user] && app.currentSessionId == Some("101") && app.isTyping;
    assert app.sessions == [ChatSession("101", "Hello", [user], 101)];
  }

  /**
   * A reply streamed into a bound transcript: each chunk lands in the
   * placeholder and the auto-sync keeps the session equal to the transcript.
   */
  method BoundReplyScenario(session: ChatSession)
    requires session.id == "7" && session.messages == []
  {
    var app := new ChatApp();
    app.sessions := [session];
    app.LoadSession(session);
    app.BeginReply("8", 8);
    app.SyncEffect();
    app.ApplyChunk("8", "Hi");
    app.SyncEffect();
    Transcript.AppendToPlaceholder(session.messages, Message("8", Model, "", 8, false), "Hi");
    assert "" + "Hi" == "Hi";
    assert app.messages == [Message("8", Model, "Hi", 8, false)];
    assert app.sessions == [session.(messages := app.messages)];
  }

  /**
   * A stream that fails after "Par": the placeholder keeps "Par" and one
   * separate error message follows it.
   */
  method PartialReplyScenario(before: seq<Message>)
    requires "3" !in MessageIds(before)
  {
    var app := new ChatApp();
    app.messages := before;
    app.BeginReply("3", 3);
    app.ApplyChunk("3", "Par");
    Transcript.AppendToPlaceholder(before, Message("3", Model, "", 3, false), "Par");
    assert "" + "Par" == "Par";
    app.FailReply("4", 4);
    app.EndReply();
    assert app.messages == before + [Message("3", Model, "Par", 3, false), Message("4", Model, FailureText, 4, true)];
  }

  /**
   * Deleting a session other than the bound one leaves the transcript and its
   * binding alone; deleting the bound one leaves an empty unbound transcript.
   */
  method DeleteScenario(a: ChatSession, b: ChatSession)
    requires a.id != b.id
  {
    var app := new ChatApp();
    app.sessions := [a, b];
    app.LoadSession(a);
    app.DeleteSession(b.id);
    assert app.sessions == [a];
    assert app.messages == a.messages && app.currentSessionId == Some(a.id);
    app.DeleteSession(a.id);
    assert app.sessions == [] && app.messages == [] && app.currentSessionId == None;
  }
}
