/**
 * The state of the patient-side chat page: the messages kept per contact,
 * the contact list with its unread counters, the text being typed and the
 * open conversation. Sending appends the typed text to the open
 * conversation; opening a contact marks its messages read. The contact list
 * is searched by name and shown whole or restricted to one role per tab.
 *
 * The message id (`m` and the current time in milliseconds) and the
 * formatted send time are parameters; the simulated doctor reply is not
 * modelled.
 */
module ChatPage {
  import opened Common
  import opened Text
  import opened Seqs

  datatype Role = Patient | Doctor

  datatype ChatMessage = ChatMessage(
    id: string,
    sender: string,
    senderRole: Role,
    content: string,
    timestamp: string,
    read: bool)

  datatype Presence = Online | Offline | Busy

  datatype ChatContact = ChatContact(
    id: string,
    name: string,
    role: Role,
    lastMessage: Option<string>,
    lastMessageTime: Option<string>,
    unreadCount: nat,
    status: Presence)

  /** `prev[id] || []` */
  function Conversation(msgs: map<string, seq<ChatMessage>>, id: string): seq<ChatMessage> {
    if id in msgs then msgs[id] else []
  }

  /** The message a send creates: the trimmed text, sent by the patient and already read. */
  function Outgoing(id: string, userName: Option<string>, text: string, time: string): (m: ChatMessage)
    ensures m.content == Trim(text) && m.senderRole == Patient && m.read
    ensures m.sender == if Truthy(userName) then userName.value else "You"
  {
    ChatMessage(id, if Truthy(userName) then userName.value else "You", Patient, Trim(text), time, true)
  }

  /** The send updater: `m` goes at the end of conversation `chat`; the others stay as they are. */
  function Appended(msgs: map<string, seq<ChatMessage>>, chat: string, m: ChatMessage): (r: map<string, seq<ChatMessage>>)
    ensures chat in r && r[chat] == Conversation(msgs, chat) + [m]
    ensures forall k :: k != chat ==> (k in r <==> k in msgs)
    ensures forall k :: k != chat && k in msgs ==> r[k] == msgs[k]
  {
    msgs[chat := Conversation(msgs, chat) + [m]]
  }

  /** `msgs.map((msg) => ({...msg, read: true}))`: every message read, nothing else changed. */
  function AllRead(msgs: seq<ChatMessage>): (r: seq<ChatMessage>)
    ensures |r| == |msgs|
    ensures forall i :: 0 <= i < |msgs| ==> r[i].read && r[i].(read := msgs[i].read) == msgs[i]
  {
    MapSeq(msgs, (m: ChatMessage) => m.(read := true))
  }

  predicate Unread(m: ChatMessage) { !m.read }

  /** After marking, no message of the conversation is unread, and marking again changes nothing. */
  lemma AllReadSettles(msgs: seq<ChatMessage>)
    ensures Count(AllRead(msgs), Unread) == 0
    ensures AllRead(AllRead(msgs)) == AllRead(msgs)
  {
    var r := AllRead(msgs);
    CountIsFilterLength(r, Unread);
    FilterNone(r, Unread);
  }

  /** The contact updater: the contact `id` gets no unread messages; every contact keeps its place. */
  function ZeroUnread(contacts: seq<ChatContact>, id: string): (r: seq<ChatContact>)
    ensures |r| == |contacts|
    ensures forall i :: 0 <= i < |contacts| && contacts[i].id == id ==>
              r[i] == contacts[i].(unreadCount := 0)
    ensures forall i :: 0 <= i < |contacts| && contacts[i].id != id ==> r[i] == contacts[i]
  {
    MapSeq(contacts, (c: ChatContact) => if c.id == id then c.(unreadCount := 0) else c)
  }

  // ------------------------------------------------------------------ search and tabs

  /** The contact's lower-cased name contains the lower-cased search term. */
  function NameMatches(term: string): ChatContact -> bool {
    (c: ChatContact) => Contains(Lower(c.name), Lower(term))
  }

  /** `filteredContacts` */
  function FilteredContacts(contacts: seq<ChatContact>, term: string): seq<ChatContact> {
    Filter(contacts, NameMatches(term))
  }

  function HasRole(role: Role): ChatContact -> bool {
    (c: ChatContact) => c.role == role
  }

  /** The Doctors and Patients tabs. */
  function Tab(contacts: seq<ChatContact>, term: string, role: Role): seq<ChatContact> {
    Filter(FilteredContacts(contacts, term), HasRole(role))
  }

  /** A contact is listed exactly when its name matches; an empty term lists every contact in order. */
  lemma FilteredContactsMembers(contacts: seq<ChatContact>, term: string, c: ChatContact)
    ensures c in FilteredContacts(contacts, term) <==> c in contacts && Contains(Lower(c.name), Lower(term))
    ensures term == "" ==> FilteredContacts(contacts, term) == contacts
  {
    FilterMembership(contacts, NameMatches(term), c);
    if term == "" {
      forall x | x in contacts ensures NameMatches(term)(x) {
        ContainsEmpty(Lower(x.name));
      }
      FilterAll(contacts, NameMatches(term));
    }
  }

  /** A tab shows exactly the listed contacts of its role. */
  lemma TabMembers(contacts: seq<ChatContact>, term: string, role: Role, c: ChatContact)
    ensures c in Tab(contacts, term, role) <==>
              c in contacts && Contains(Lower(c.name), Lower(term)) && c.role == role
  {
    FilterMembership(FilteredContacts(contacts, term), HasRole(role), c);
    FilteredContactsMembers(contacts, term, c);
  }

  /** The two tabs together hold as many contacts as the full list. */
  lemma TabsCoverList(contacts: seq<ChatContact>, term: string)
    ensures |Tab(contacts, term, Doctor)| + |Tab(contacts, term, Patient)| == |FilteredContacts(contacts, term)|
  {
    RolesPartition(FilteredContacts(contacts, term));
  }

  lemma {:induction false} RolesPartition(cs: seq<ChatContact>)
    ensures |Filter(cs, HasRole(Doctor))| + |Filter(cs, HasRole(Patient))| == |cs|
  {
    if cs != [] {
      RolesPartition(cs[1..]);
    }
  }

  // ------------------------------------------------------------------ the page state

  class ChatState {
    var activeChat: Option<string>
    var message: string
    var searchTerm: string
    var contacts: seq<ChatContact>
    var chatMessages: map<string, seq<ChatMessage>>

    constructor (contacts0: seq<ChatContact>, messages0: map<string, seq<ChatMessage>>)
      ensures activeChat == None && message == "" && searchTerm == ""
      ensures contacts == contacts0 && chatMessages == messages0
    {
      activeChat := None;
      message := "";
      searchTerm := "";
      contacts := contacts0;
      chatMessages := messages0;
    }

    /**
     * `handleSendMessage`: nothing happens when the typed text is blank or no
     * conversation is open; otherwise the trimmed text is appended to the open
     * conversation and the input is cleared.
     */
    method HandleSendMessage(userName: Option<string>, id: string, time: string)
      modifies this`chatMessages, this`message
      ensures Trim(old(message)) == "" || !Truthy(activeChat) ==>
                chatMessages == old(chatMessages) && message == old(message)
      ensures Trim(old(message)) != "" && Truthy(activeChat) ==>
                && chatMessages == Appended(old(chatMessages), activeChat.value, Outgoing(id, userName, old(message), time))
                && message == ""
    {
      if Trim(message) == "" || activeChat.None? || activeChat.value == "" {
        return;
      }
      var chat := activeChat.value;
      var m := ChatMessage(id, if userName.Some? && userName.value != "" then userName.value else "You",
                           Patient, Trim(message), time, true);
      chatMessages := chatMessages[chat := Conversation(chatMessages, chat) + [m]];
      message := "";
    }

    /**
     * `markMessagesAsRead`: every message of the contact is read and its
     * unread counter is zero. A contact without a conversation makes the
     * updater throw; then nothing changes and `failed` is set.
     */
    method MarkMessagesAsRead(contactId: string) returns (failed: bool)
      modifies this`chatMessages, this`contacts
      ensures failed <==> contactId !in old(chatMessages)
      ensures failed ==> chatMessages == old(chatMessages) && contacts == old(contacts)
      ensures !failed ==> chatMessages == old(chatMessages)[contactId := AllRead(old(chatMessages)[contactId])]
      ensures !failed ==> contacts == ZeroUnread(old(contacts), contactId)
    {
      if contactId !in chatMessages {
        return true;
      }
      chatMessages := chatMessages[contactId := AllRead(chatMessages[contactId])];
      contacts := ZeroUnread(contacts, contactId);
      failed := false;
    }

    /** Clicking a contact opens its conversation and marks it read. */
    method SelectContact(contactId: string) returns (failed: bool)
      modifies this`activeChat, this`chatMessages, this`contacts
      ensures activeChat == Some(contactId)
      ensures failed <==> contactId !in old(chatMessages)
      ensures !failed ==> chatMessages == old(chatMessages)[contactId := AllRead(old(chatMessages)[contactId])]
      ensures !failed ==> contacts == ZeroUnread(old(contacts), contactId)
    {
      activeChat := Some(contactId);
      failed := MarkMessagesAsRead(contactId);
    }
  }
}
