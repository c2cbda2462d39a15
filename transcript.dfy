/**
 * The active transcript of the chat client (App.tsx): how a streamed chunk is
 * written into the reply placeholder, found by its id (App.tsx:150-154).
 */
module Transcript {
  import opened Types

  /**
   * The transcript after `chunk` is appended to every message whose id is `id`.
   * Length, order and ids are kept; a matching message keeps its id, role,
   * timestamp and error flag and its content grows by `chunk` at the end; every
   * other message is unchanged.
   */
  function AppendToId(msgs: seq<Message>, id: string, chunk: string): (r: seq<Message>)
    ensures |r| == |msgs|
    ensures MessageIds(r) == MessageIds(msgs)
    ensures forall i :: 0 <= i < |msgs| && msgs[i].id != id ==> r[i] == msgs[i]
    ensures forall i :: 0 <= i < |msgs| && msgs[i].id == id ==>
      && r[i].role == msgs[i].role
      && r[i].timestamp == msgs[i].timestamp
      && r[i].isError == msgs[i].isError
      && r[i].content == msgs[i].content + chunk
  {
    if msgs == [] then []
    else
      var m := msgs[0];
      [if m.id == id then m.(content := m.content + chunk) else m] + AppendToId(msgs[1..], id, chunk)
  }

  /** Appending nothing changes nothing. */
  lemma AppendEmpty(msgs: seq<Message>, id: string)
    ensures AppendToId(msgs, id, "") == msgs
  {
    var r := AppendToId(msgs, id, "");
    forall i | 0 <= i < |msgs| ensures r[i] == msgs[i] {
      if msgs[i].id == id {
        assert msgs[i].content + "" == msgs[i].content;
      }
    }
  }

  /**
   * Chunks are neither reordered nor merged: appending `a` and then `b` is
   * appending `a + b`.
   */
  lemma {:induction false} AppendCompose(msgs: seq<Message>, id: string, a: string, b: string)
    ensures AppendToId(AppendToId(msgs, id, a), id, b) == AppendToId(msgs, id, a + b)
  {
    if msgs != [] {
      var m := msgs[0];
      if m.id == id {
        assert m.content + a + b == m.content + (a + b);
      }
      AppendCompose(msgs[1..], id, a, b);
      assert AppendToId(msgs, id, a)[1..] == AppendToId(msgs[1..], id, a);
    }
  }

  /** A chunk for an id no message carries leaves the transcript as it was. */
  lemma AppendAbsent(msgs: seq<Message>, id: string, chunk: string)
    requires id !in MessageIds(msgs)
    ensures AppendToId(msgs, id, chunk) == msgs
  {
    var r := AppendToId(msgs, id, chunk);
    forall i | 0 <= i < |msgs| ensures r[i] == msgs[i] {
      assert MessageIds(msgs)[i] == msgs[i].id;
    }
  }

  /**
   * When the placeholder is the last message and no earlier message has its id,
   * appending text to that id changes the placeholder's content and nothing else.
   */
  lemma AppendToPlaceholder(before: seq<Message>, placeholder: Message, text: string)
    requires placeholder.id !in MessageIds(before)
    ensures AppendToId(before + [placeholder], placeholder.id, text)
      == before + [placeholder.(content := placeholder.content + text)]
  {
    var msgs := before + [placeholder];
    var r := AppendToId(msgs, placeholder.id, text);
    var want := before + [placeholder.(content := placeholder.content + text)];
    forall i | 0 <= i < |msgs| ensures r[i] == want[i] {
      if i < |before| {
        assert MessageIds(before)[i] == before[i].id;
        assert msgs[i] == before[i];
      }
    }
  }
}
