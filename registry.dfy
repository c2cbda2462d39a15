/**
 * The session registry of the chat client (App.tsx): the ordered list of saved
 * sessions, most recent first, and the list transforms the handlers apply to it.
 */
module Registry {
  import opened Types
  import Text

  /** The default title a session may still carry; saving over it re-derives the title. */
  const PlaceholderTitle: string := "New Chat"

  /**
   * The bound branch of `saveCurrentSession` (App.tsx:95-99): every session with
   * the bound `id` takes the saved transcript `msgs`, and keeps its title unless
   * that title is still the placeholder, in which case it takes `title`. All
   * other sessions, the length and the order of the registry are unchanged.
   */
  function WithSaved(sessions: seq<ChatSession>, id: string, msgs: seq<Message>, title: string): (r: seq<ChatSession>)
    ensures |r| == |sessions|
    ensures SessionIds(r) == SessionIds(sessions)
    ensures forall i :: 0 <= i < |sessions| && sessions[i].id != id ==> r[i] == sessions[i]
    ensures forall i :: 0 <= i < |sessions| && sessions[i].id == id ==>
      && r[i].messages == msgs
      && r[i].createdAt == sessions[i].createdAt
      && r[i].title == (if sessions[i].title == PlaceholderTitle then title else sessions[i].title)
  {
    if sessions == [] then []
    else
      var s := sessions[0];
      var s' := if s.id == id then s.(messages := msgs, title := if s.title == PlaceholderTitle then title else s.title) else s;
      [s'] + WithSaved(sessions[1..], id, msgs, title)
  }

  /**
   * The auto-sync effect's update (App.tsx:195-197): every session with the
   * bound `id` takes the transcript `msgs` and keeps its id, title and creation
   * time; all other sessions, the length and the order are unchanged.
   */
  function WithMessages(sessions: seq<ChatSession>, id: string, msgs: seq<Message>): (r: seq<ChatSession>)
    ensures |r| == |sessions|
    ensures SessionIds(r) == SessionIds(sessions)
    ensures forall i :: 0 <= i < |sessions| && sessions[i].id != id ==> r[i] == sessions[i]
    ensures forall i :: 0 <= i < |sessions| && sessions[i].id == id ==>
      r[i] == ChatSession(id, sessions[i].title, msgs, sessions[i].createdAt)
  {
    if sessions == [] then []
    else
      var s := sessions[0];
      [if s.id == id then s.(messages := msgs) else s] + WithMessages(sessions[1..], id, msgs)
  }

  /**
   * What a save did to the registry: the new registry and, when it created a
   * session, the id the transcript is to be bound to.
   */
  datatype Saved = Saved(sessions: seq<ChatSession>, created: Option<string>)

  /**
   * `saveCurrentSession` (App.tsx:79-101) applied to the registry `sessions`
   * with the binding `binding` its closure captured: an empty transcript is not
   * saved; an unbound transcript becomes a new session, titled from its first
   * message, put at the front of the registry ahead of the others in their
   * order, and its id is to be bound; a bound transcript replaces the stored
   * messages of its session, keeping the registry's length and order.
   */
  function Save(sessions: seq<ChatSession>, binding: Option<string>, updated: seq<Message>,
                newId: string, createdAt: int): (r: Saved)
    ensures updated == [] ==> r == Saved(sessions, None)
    ensures updated != [] && !Truthy(binding) ==>
      && |r.sessions| == |sessions| + 1
      && r.sessions[0] == ChatSession(newId, Text.DeriveTitle(updated[0].content), updated, createdAt)
      && r.sessions[1..] == sessions
      && r.created == Some(newId)
    ensures updated != [] && Truthy(binding) ==>
      && r.sessions == WithSaved(sessions, binding.value, updated, Text.DeriveTitle(updated[0].content))
      && SessionIds(r.sessions) == SessionIds(sessions)
      && r.created == None
  {
    if updated == [] then Saved(sessions, None)
    else
      var title := Text.DeriveTitle(updated[0].content);
      if !Truthy(binding) then
        Saved([ChatSession(newId, title, updated, createdAt)] + sessions, Some(newId))
      else
        Saved(WithSaved(sessions, binding.value, updated, title), None)
  }

  /**
   * A transcript creates at most one session: once a save has created a session
   * (with a usable id) and bound the transcript to it, the next save of that
   * transcript creates none and keeps the registry's length.
   */
  lemma SaveCreatesAtMostOnce(sessions: seq<ChatSession>, binding: Option<string>, updated: seq<Message>,
                              newId: string, createdAt: int, next: seq<Message>, nextId: string, nextAt: int)
    requires newId != ""
    ensures var first := Save(sessions, binding, updated, newId, createdAt);
            var rebound := if first.created.Some? then first.created else binding;
            var second := Save(first.sessions, rebound, next, nextId, nextAt);
            && |first.sessions| <= |sessions| + 1
            && (first.created.Some? ==> second.created == None && |second.sessions| == |first.sessions|)
  {
  }

  /**
   * Saving keeps session ids unique as long as a created session's id is not
   * already in use; a bound save stores the transcript in its session.
   */
  lemma SaveKeepsUnique(sessions: seq<ChatSession>, binding: Option<string>, updated: seq<Message>,
                        newId: string, createdAt: int)
    requires UniqueIds(sessions)
    requires newId !in SessionIds(sessions)
    ensures UniqueIds(Save(sessions, binding, updated, newId, createdAt).sessions)
  {
    var r := Save(sessions, binding, updated, newId, createdAt);
    if updated != [] {
      if !Truthy(binding) {
        PrependKeepsUnique(r.sessions[0], sessions);
        assert r.sessions == [r.sessions[0]] + sessions;
      } else {
        forall i, j | 0 <= i < j < |r.sessions| ensures r.sessions[i].id != r.sessions[j].id {
          assert SessionIds(r.sessions)[i] == SessionIds(sessions)[i];
          assert SessionIds(r.sessions)[j] == SessionIds(sessions)[j];
        }
      }
    }
  }

  /**
   * `deleteSession`'s filter (App.tsx:111): the registry without the sessions
   * whose id is `id`. A session is kept exactly when it was there and has
   * another id.
   */
  function Without(sessions: seq<ChatSession>, id: string): (r: seq<ChatSession>)
    ensures |r| <= |sessions|
    ensures forall s :: s in r <==> s in sessions && s.id != id
  {
    if sessions == [] then []
    else if sessions[0].id == id then Without(sessions[1..], id)
    else [sessions[0]] + Without(sessions[1..], id)
  }

  /** The later of two syncs of the same session wins: the earlier one leaves no trace. */
  lemma WithMessagesOverwrite(sessions: seq<ChatSession>, id: string, earlier: seq<Message>, later: seq<Message>)
    ensures WithMessages(WithMessages(sessions, id, earlier), id, later) == WithMessages(sessions, id, later)
  {
    var once := WithMessages(sessions, id, earlier);
    var twice := WithMessages(once, id, later);
    var direct := WithMessages(sessions, id, later);
    forall i | 0 <= i < |sessions| ensures twice[i] == direct[i] {
      assert SessionIds(once)[i] == SessionIds(sessions)[i];
    }
  }

  /**
   * The auto-sync that follows a save of the same transcript changes nothing:
   * the save already stored it.
   */
  lemma SyncAfterSave(sessions: seq<ChatSession>, id: string, msgs: seq<Message>, title: string)
    ensures WithMessages(WithSaved(sessions, id, msgs, title), id, msgs) == WithSaved(sessions, id, msgs, title)
  {
    var saved := WithSaved(sessions, id, msgs, title);
    var synced := WithMessages(saved, id, msgs);
    assert forall i :: 0 <= i < |sessions| ==> synced[i] == saved[i];
  }

  /** The filter keeps order: deleting from a concatenation deletes from each part. */
  lemma {:induction false} WithoutConcat(a: seq<ChatSession>, b: seq<ChatSession>, id: string)
    ensures Without(a + b, id) == Without(a, id) + Without(b, id)
  {
    if a == [] {
      assert a + b == b;
    } else {
      assert (a + b)[1..] == a[1..] + b;
      WithoutConcat(a[1..], b, id);
    }
  }

  /** Deleting an id that no session carries leaves the registry as it was. */
  lemma {:induction false} WithoutAbsent(sessions: seq<ChatSession>, id: string)
    requires id !in SessionIds(sessions)
    ensures Without(sessions, id) == sessions
  {
    if sessions != [] {
      assert SessionIds(sessions[1..]) == SessionIds(sessions)[1..];
      WithoutAbsent(sessions[1..], id);
    }
  }

  /**
   * In a registry with unique ids, deleting the id of the session at `k`
   * removes exactly that session and keeps the others in their order.
   */
  lemma {:induction false} WithoutUnique(sessions: seq<ChatSession>, id: string, k: nat)
    requires UniqueIds(sessions)
    requires k < |sessions| && sessions[k].id == id
    ensures Without(sessions, id) == sessions[..k] + sessions[k + 1..]
    ensures |Without(sessions, id)| == |sessions| - 1
  {
    var tail := sessions[1..];
    if k == 0 {
      assert id !in SessionIds(tail) by {
        forall i | 0 <= i < |tail| ensures tail[i].id != id {
          assert tail[i] == sessions[i + 1];
        }
      }
      WithoutAbsent(tail, id);
    } else {
      assert UniqueIds(tail) by {
        forall i, j | 0 <= i < j < |tail| ensures tail[i].id != tail[j].id {
          assert tail[i] == sessions[i + 1] && tail[j] == sessions[j + 1];
        }
      }
      WithoutUnique(tail, id, k - 1);
      assert sessions[..k] == [sessions[0]] + tail[..k - 1];
      assert sessions[k + 1..] == tail[k..];
    }
  }

  /** Deleting keeps the ids of the registry unique. */
  lemma {:induction false} WithoutKeepsUnique(sessions: seq<ChatSession>, id: string)
    requires UniqueIds(sessions)
    ensures UniqueIds(Without(sessions, id))
  {
    if sessions != [] {
      var tail := sessions[1..];
      assert UniqueIds(tail) by {
        forall i, j | 0 <= i < j < |tail| ensures tail[i].id != tail[j].id {
          assert tail[i] == sessions[i + 1] && tail[j] == sessions[j + 1];
        }
      }
      WithoutKeepsUnique(tail, id);
      if sessions[0].id != id {
        var rest := Without(tail, id);
        forall s | s in rest ensures s.id != sessions[0].id {
          var j :| 0 <= j < |tail| && tail[j] == s;
          assert s == sessions[j + 1];
        }
      }
    }
  }

  /** Putting a session with a fresh id at the front keeps the ids unique. */
  lemma PrependKeepsUnique(session: ChatSession, sessions: seq<ChatSession>)
    requires UniqueIds(sessions)
    requires session.id !in SessionIds(sessions)
    ensures UniqueIds([session] + sessions)
  {
    var r := [session] + sessions;
    forall i, j | 0 <= i < j < |r| ensures r[i].id != r[j].id {
      if i > 0 {
        assert r[i] == sessions[i - 1];
      }
      assert r[j] == sessions[j - 1];
    }
  }
}
