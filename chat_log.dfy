/** The rendered chat of the overlay, as `addChatMessage`
    (extension/content.js) grows it: a message whose id is already the
    `data-id` of a rendered line is skipped; SYSTEM messages are rendered
    without a `data-id`, so they are never recognised later. */
module ChatLog {
  import opened Options

  /** A chat message as relayed by the server or built by the sender. Its
      id is taken to be a string, as the ids this script builds are. */
  datatype ChatMsg = ChatMsg(id: string, userId: string, text: string, timestamp: int)

  /** The author whose messages are rendered as centred notices. */
  const SystemUser: string := "SYSTEM"

  /** One rendered line: its `data-id` (absent on SYSTEM lines), author and text. */
  datatype Entry = Entry(dataId: Option<string>, author: string, text: string)

  /** Some rendered line carries `id` as its `data-id`. */
  predicate Rendered(chat: seq<Entry>, id: string)
  {
    exists i :: 0 <= i < |chat| && chat[i].dataId == Some(id)
  }

  /** No two rendered lines share a `data-id`. */
  predicate UniqueIds(chat: seq<Entry>)
  {
    forall i, j :: 0 <= i < j < |chat| && chat[i].dataId.Some? ==> chat[i].dataId != chat[j].dataId
  }

  /** The line rendered for a message. */
  function EntryFor(m: ChatMsg): (e: Entry)
    ensures e.author == m.userId && e.text == m.text
    ensures e.dataId.None? <==> m.userId == SystemUser
  {
    if m.userId == SystemUser then Entry(None, m.userId, m.text) else Entry(Some(m.id), m.userId, m.text)
  }

  /** The rendered chat after `addChatMessage(m)` on an existing container. */
  function WithMessage(chat: seq<Entry>, m: ChatMsg): (r: seq<Entry>)
    ensures chat <= r && |r| <= |chat| + 1
    ensures r == chat <==> Rendered(chat, m.id)
    ensures r != chat ==> r[|chat|] == EntryFor(m)
  {
    if Rendered(chat, m.id) then chat else chat + [EntryFor(m)]
  }

  /** How many rendered lines carry `id`. */
  function CountId(chat: seq<Entry>, id: string): nat
  {
    if chat == [] then 0
    else CountId(chat[..|chat| - 1], id) + (if chat[|chat| - 1].dataId == Some(id) then 1 else 0)
  }

  /** Adding a message never creates a second line with the same `data-id`. */
  lemma WithMessageKeepsIdsUnique(chat: seq<Entry>, m: ChatMsg)
    requires UniqueIds(chat)
    ensures UniqueIds(WithMessage(chat, m))
  {
  }

  /** After the call the message's id is rendered exactly when it was before
      or the message is not a SYSTEM one; delivering the same non-SYSTEM
      message again changes nothing. */
  lemma {:induction false} WithMessageIdempotent(chat: seq<Entry>, m: ChatMsg)
    ensures Rendered(WithMessage(chat, m), m.id) <==> Rendered(chat, m.id) || m.userId != SystemUser
    ensures m.userId != SystemUser ==> WithMessage(WithMessage(chat, m), m) == WithMessage(chat, m)
  {
    if !Rendered(chat, m.id) && m.userId != SystemUser {
      var c := WithMessage(chat, m);
      assert c[|chat|].dataId == Some(m.id);
    }
    if Rendered(chat, m.id) {
      var i :| 0 <= i < |chat| && chat[i].dataId == Some(m.id);
      assert WithMessage(chat, m)[i].dataId == Some(m.id);
    }
  }

  /** A SYSTEM message not yet shadowed by a rendered id is rendered again on
      every delivery. */
  lemma SystemMessagesRepeat(chat: seq<Entry>, m: ChatMsg)
    requires m.userId == SystemUser && !Rendered(chat, m.id)
    ensures WithMessage(WithMessage(chat, m), m) == chat + [EntryFor(m), EntryFor(m)]
  {
    var c := WithMessage(chat, m);
    assert !Rendered(c, m.id) by {
      forall i | 0 <= i < |c| ensures c[i].dataId != Some(m.id) {
        if i < |chat| { assert c[i] == chat[i]; }
      }
    }
  }

  /** With unique ids every id is carried by at most one line: a message id,
      once rendered, is never rendered twice. */
  lemma {:induction false} UniqueIdsAtMostOnce(chat: seq<Entry>, id: string)
    requires UniqueIds(chat)
    ensures CountId(chat, id) <= 1
    ensures CountId(chat, id) == 1 <==> Rendered(chat, id)
  {
    if chat != [] {
      var init := chat[..|chat| - 1];
      assert UniqueIds(init);
      UniqueIdsAtMostOnce(init, id);
      if chat[|chat| - 1].dataId == Some(id) {
        assert !Rendered(init, id) by {
          forall i | 0 <= i < |init| ensures init[i].dataId != Some(id) {
            assert chat[i] == init[i];
          }
        }
      } else {
        if Rendered(chat, id) {
          var i :| 0 <= i < |chat| && chat[i].dataId == Some(id);
          assert init[i] == chat[i];
        }
      }
    }
  }
}
