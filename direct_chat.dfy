/** The chat pane (components/DirectChat.tsx): one list of messages, an
    input line, and a send action that appends what was typed. The contact
    comes from the root and is only read here. */
module DirectChat {
  import opened Types
  import Text

  const OpeningText := "Hi Alex! We saw your profile and we are interested in your React skills."
  const ReplyText := "Thank you Sarah! I would love to learn more about the Frontend Developer position."

  /** The two messages every pane starts with, timed relative to `now`. */
  function SeedMessages(now: int): (r: seq<Message>)
    ensures |r| == 2 && r[0].timestamp < r[1].timestamp < now
  {
    [ Message("1", "bus-1", "user-1", OpeningText, now - 3600000),
      Message("2", "user-1", "bus-1", ReplyText, now - 3000000) ]
  }

  /** A message is drawn on the right when the current user sent it. */
  predicate IsMine(msg: Message, userId: string)
  {
    msg.senderId == userId
  }

  /** `handleSend` is refused for a blank line or without a contact. */
  predicate CanSend(input: string, contact: Option<Contact>)
  {
    Text.Trim(input) != [] && contact.Some?
  }

  /** What a send leaves: the messages and the input line. `id` and `now`
      stand for the clock reading used for the id and the timestamp. */
  datatype ChatState = ChatState(messages: seq<Message>, input: string)

  function Send(s: ChatState, me: string, contact: Option<Contact>, id: string, now: int): ChatState
  {
    if !CanSend(s.input, contact) then s
    else ChatState(s.messages + [Message(id, me, contact.value.id, s.input, now)], [])
  }

  /** A send appends exactly one message, the line as typed (not trimmed),
      from the user to the contact, and clears the input, when the line has
      a non-whitespace character and a contact is open; otherwise nothing
      changes. Earlier messages are never changed or reordered. */
  lemma SendSpec(s: ChatState, me: string, contact: Option<Contact>, id: string, now: int)
    ensures var r := Send(s, me, contact, id, now);
            (r != s <==> !Text.IsBlank(s.input) && contact.Some?)
            && (r != s ==> r.messages == s.messages + [Message(id, me, contact.value.id, s.input, now)] && r.input == [])
            && r.messages[..|s.messages|] == s.messages
  {
    Text.TrimEmptyIffBlank(s.input);
    var r := Send(s, me, contact, id, now);
    if CanSend(s.input, contact) {
      assert |r.messages| != |s.messages|;
    }
  }

  /** Sending twice in a row sends once: the first send clears the line. */
  lemma SecondSendIgnored(s: ChatState, me: string, contact: Option<Contact>, id1: string, id2: string, now1: int, now2: int)
    ensures var r := Send(s, me, contact, id1, now1);
            Send(r, me, contact, id2, now2) == r
  {
    var r := Send(s, me, contact, id1, now1);
    if CanSend(s.input, contact) {
      Text.TrimEmptyIffBlank(r.input);
    }
  }

  /** The seed conversation belongs to 'user-1': any other user sees both
      seed messages as somebody else's unless it is 'bus-1'. */
  lemma SeedOwnership(now: int, me: string)
    ensures IsMine(SeedMessages(now)[0], me) <==> me == "bus-1"
    ensures IsMine(SeedMessages(now)[1], me) <==> me == "user-1"
  {
  }

  /** The component: the list and the input line it owns, the user and the
      contact it is given. */
  class ChatPanel {
    const currentUserId: string
    var activeContact: Option<Contact>
    var messages: seq<Message>
    var inputText: string

    constructor (currentUserId: string, activeContact: Option<Contact>, now: int)
      ensures this.currentUserId == currentUserId && this.activeContact == activeContact
      ensures messages == SeedMessages(now) && inputText == []
    {
      this.currentUserId := currentUserId;
      this.activeContact := activeContact;
      messages := SeedMessages(now);
      inputText := [];
    }

    /** The root selects a different contact; the list stays as it is. */
    method SetActiveContact(c: Option<Contact>)
      modifies this`activeContact
      ensures activeContact == c
    {
      activeContact := c;
    }

    /** The input's change handler. */
    method SetInput(text: string)
      modifies this`inputText
      ensures inputText == text
    {
      inputText := text;
    }

    /** `handleSend`, from the send button or the Enter key. */
    method HandleSend(id: string, now: int)
      modifies this`messages, this`inputText
      ensures ChatState(messages, inputText)
           == Send(ChatState(old(messages), old(inputText)), currentUserId, activeContact, id, now)
    {
      if Text.Trim(inputText) == [] || activeContact.None? {
        return;
      }
      messages := messages + [Message(id, currentUserId, activeContact.value.id, inputText, now)];
      inputText := [];
    }

    /** Every message in the list is drawn, in order, whatever the contact. */
    function Displayed(): (r: seq<(Message, bool)>)
      reads this
      ensures |r| == |messages|
      ensures forall k :: 0 <= k < |r| ==> r[k].0 == messages[k] && (r[k].1 <==> messages[k].senderId == currentUserId)
    {
      seq(|messages|, (k: int) requires 0 <= k < |messages| reads this => (messages[k], IsMine(messages[k], currentUserId)))
    }
  }
}
