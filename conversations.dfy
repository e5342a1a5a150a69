/** The saved-conversation list of
    frontend/src/components/ConversationManager.tsx: loading it from browser
    storage, saving the current transcript, deleting by id, importing a
    conversation file and handing a saved transcript back to the chat.
    After every change the storage slot holds the list as it now is.

    Ids and timestamps are inputs; `JSON.parse` is represented by its
    outcome (the parsed list or conversation, or a parse failure). */
module Conversations {
  import opened Common
  import opened Messages

  datatype Conversation = Conversation(id: string, title: string, messages: seq<Message>, createdAt: int, updatedAt: int)

  /** The "qualitybot-conversations" storage slot as the component reads it. */
  datatype Slot = Absent | Unparsable | Holds(list: seq<Conversation>)

  const FallbackTitle := "New Conversation"
  const Ellipsis := "..."

  /** The title as written: the first 50 characters of the first message
      after the welcome message, then "...", or the fallback title when
      that is falsy. */
  function Title(messages: seq<Message>): string
    requires |messages| > 1
  {
    var t := Take(messages[1].content, 50) + Ellipsis;
    if t != "" then t else FallbackTitle
  }

  /** The title is always the first at most 50 characters of that message
      followed by "...", so it is at most 53 characters long and the
      fallback title is never produced. */
  lemma TitleShape(messages: seq<Message>)
    requires |messages| > 1
    ensures var t := Title(messages);
      && |t| <= 53
      && t == Take(messages[1].content, 50) + Ellipsis
      && t[|t| - 3..] == Ellipsis
      && messages[1].content[..|t| - 3] == t[..|t| - 3]
      && t != FallbackTitle
  {
    var t := Take(messages[1].content, 50) + Ellipsis;
    assert t[|t| - 1] == '.';
    assert FallbackTitle[|FallbackTitle| - 1] == 'n';
  }

  /** `conversations.filter((conv) => conv.id !== id)`. */
  function WithoutId(s: seq<Conversation>, id: string): (r: seq<Conversation>)
    ensures |r| <= |s|
    ensures forall c :: c in r <==> c in s && c.id != id
  {
    if s == [] then []
    else if s[0].id != id then [s[0]] + WithoutId(s[1..], id)
    else WithoutId(s[1..], id)
  }

  /** Deleting keeps the order of the rest: it distributes over
      concatenation. */
  lemma {:induction false} WithoutIdConcat(s: seq<Conversation>, t: seq<Conversation>, id: string)
    ensures WithoutId(s + t, id) == WithoutId(s, id) + WithoutId(t, id)
  {
    if s == [] {
      assert s + t == t;
    } else {
      assert (s + t)[0] == s[0];
      assert (s + t)[1..] == s[1..] + t;
      WithoutIdConcat(s[1..], t, id);
    }
  }

  /** An id no conversation carries leaves the list as it is. */
  lemma {:induction false} WithoutAbsentId(s: seq<Conversation>, id: string)
    requires forall i :: 0 <= i < |s| ==> s[i].id != id
    ensures WithoutId(s, id) == s
  {
    if s != [] {
      WithoutAbsentId(s[1..], id);
    }
  }

  /** Deleting the same id twice is deleting it once. */
  lemma WithoutIdIdempotent(s: seq<Conversation>, id: string)
    ensures WithoutId(WithoutId(s, id), id) == WithoutId(s, id)
  {
    var r := WithoutId(s, id);
    forall i | 0 <= i < |r|
      ensures r[i].id != id
    {
      assert r[i] in r;
    }
    WithoutAbsentId(r, id);
  }

  class ConversationStore {
    var conversations: seq<Conversation>
    var stored: Slot

    /** Mounting: the stored list if the slot holds one, otherwise none. */
    constructor(slot: Slot)
      ensures stored == slot
      ensures conversations == if slot.Holds? then slot.list else []
    {
      stored := slot;
      conversations := if slot.Holds? then slot.list else [];
    }

    /** `saveConversation`: nothing happens for a transcript of at most the
        welcome message; otherwise exactly one conversation, holding the
        transcript as it is, is appended and the list is stored. */
    method Save(messages: seq<Message>, newId: string, now: int)
      modifies this
      ensures |messages| <= 1 ==> conversations == old(conversations) && stored == old(stored)
      ensures |messages| > 1 ==>
        && conversations == old(conversations) + [Conversation(newId, Title(messages), messages, now, now)]
        && stored == Holds(conversations)
    {
      if |messages| <= 1 {
        return;
      }
      var conversation := Conversation(newId, Title(messages), messages, now, now);
      conversations := conversations + [conversation];
      stored := Holds(conversations);
    }

    /** `deleteConversation`: every conversation with the id goes, the rest
        stay in order, and the list is stored. */
    method Delete(id: string)
      modifies this
      ensures conversations == WithoutId(old(conversations), id)
      ensures stored == Holds(conversations)
    {
      conversations := WithoutId(conversations, id);
      stored := Holds(conversations);
    }

    /** `importConversation`: a file that parses is appended and the list
        stored; a parse failure changes neither the list nor the slot. */
    method Import(parsed: Option<Conversation>)
      modifies this
      ensures parsed.Some? ==> conversations == old(conversations) + [parsed.value] && stored == Holds(conversations)
      ensures parsed.None? ==> conversations == old(conversations) && stored == old(stored)
    {
      if parsed.Some? {
        conversations := conversations + [parsed.value];
        stored := Holds(conversations);
      }
    }

    /** `loadConversation`: the saved transcript, unchanged. */
    method Load(i: nat) returns (messages: seq<Message>)
      requires i < |conversations|
      ensures messages == conversations[i].messages
    {
      messages := conversations[i].messages;
    }

    /** Saving a transcript and loading the new last entry gives the
        transcript back. */
    method SaveThenLoad(messages: seq<Message>, newId: string, now: int) returns (loaded: seq<Message>)
      requires |messages| > 1
      modifies this
      ensures loaded == messages
      ensures stored == Holds(conversations) && |conversations| == |old(conversations)| + 1
    {
      Save(messages, newId, now);
      loaded := Load(|conversations| - 1);
    }
  }
}
