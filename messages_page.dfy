/**
 * The messages page (src/app/messages/page.tsx): the conversation list with
 * its search box and its all / unread tabs, the open conversation and its
 * messages, and the composer. The random id and the clock of a sent message
 * are parameters.
 */
module MessagesPage {
  import opened Wrappers
  import opened Types
  import opened Js
  import opened Seqs
  import TestApi

  function Names(users: seq<User>): (r: seq<string>)
    ensures |r| == |users| && forall k :: 0 <= k < |r| ==> r[k] == users[k].name
  {
    seq(|users|, k requires 0 <= k < |users| => users[k].name)
  }

  function LowerAll(parts: seq<string>): (r: seq<string>)
    ensures |r| == |parts| && forall k :: 0 <= k < |r| ==> r[k] == ToLower(parts[k])
  {
    seq(|parts|, k requires 0 <= k < |parts| => ToLower(parts[k]))
  }

  /** Lower-casing a joined string lower-cases each part; the separator has no letters. */
  lemma {:induction false} ToLowerJoin(parts: seq<string>, sep: string)
    requires ToLower(sep) == sep
    ensures ToLower(Join(parts, sep)) == Join(LowerAll(parts), sep)
  {
    if |parts| > 1 {
      ToLowerJoin(parts[1..], sep);
      assert LowerAll(parts)[1..] == LowerAll(parts[1..]);
      ToLowerConcat(parts[0] + sep, Join(parts[1..], sep));
      ToLowerConcat(parts[0], sep);
    }
  }

  /** The lower-cased content of the last message, or '' when there is none. */
  function LastContent(c: Conversation): string {
    if c.lastMessage.Some? then ToLower(c.lastMessage.value.content) else ""
  }

  /** The search predicate: the participants' names joined by spaces, or the last message, contains the query. */
  predicate ConversationMatches(c: Conversation, query: string) {
    Includes(ToLower(Join(Names(c.participants), " ")), ToLower(query))
    || Includes(LastContent(c), ToLower(query))
  }

  /** filteredConversations. */
  function FilteredConversations(conversations: seq<Conversation>, query: string): (r: seq<Conversation>)
    ensures forall c :: c in r <==> c in conversations && ConversationMatches(c, query)
  {
    Filter(conversations, (c: Conversation) => ConversationMatches(c, query))
  }

  /** A conversation shows up when one participant's name contains the query, in any letter case. */
  lemma ParticipantNameMatches(c: Conversation, k: nat, query: string)
    requires k < |c.participants| && Includes(ToLower(c.participants[k].name), ToLower(query))
    ensures ConversationMatches(c, query)
  {
    var names := Names(c.participants);
    ToLowerJoin(names, " ");
    JoinIncludesPart(LowerAll(names), " ", k, ToLower(query));
  }

  /** The empty search shows every conversation. */
  lemma EmptyQueryKeepsAll(conversations: seq<Conversation>)
    ensures FilteredConversations(conversations, "") == conversations
  {
    var p := (c: Conversation) => ConversationMatches(c, "");
    forall c | c in conversations ensures p(c) {
      IncludesEmpty(ToLower(Join(Names(c.participants), " ")));
    }
    FilterKeepsAll(conversations, p);
  }

  /** The unread tab (any tab but the first) keeps the conversations with unread messages. */
  function ShownConversations(conversations: seq<Conversation>, query: string, tab: int): (r: seq<Conversation>)
    ensures forall c :: c in r <==> c in conversations && ConversationMatches(c, query) && (tab == 0 || c.unreadCount > 0)
    ensures tab == 0 ==> r == FilteredConversations(conversations, query)
  {
    var f := FilteredConversations(conversations, query);
    var p := (c: Conversation) => tab == 0 || c.unreadCount > 0;
    if tab == 0 then FilterKeepsAll(f, p); Filter(f, p) else Filter(f, p)
  }

  /** The participants other than the signed-in user; with nobody signed in, all of them. */
  function OtherParticipants(c: Conversation, user: Option<User>): (r: seq<User>)
    ensures forall p :: p in r <==> p in c.participants && (user.None? || p.id != user.value.id)
    ensures user.None? ==> r == c.participants
  {
    var keep := (p: User) => user.None? || p.id != user.value.id;
    if user.None? then FilterKeepsAll(c.participants, keep); Filter(c.participants, keep)
    else Filter(c.participants, keep)
  }

  /** The title of a conversation: the other participants' names joined by ", ". */
  function ConversationName(c: Conversation, user: Option<User>): string {
    Join(Names(OtherParticipants(c, user)), ", ")
  }

  /** Every other participant's name appears in the title. */
  lemma NameShowsOthers(c: Conversation, user: Option<User>, k: nat)
    requires k < |OtherParticipants(c, user)|
    ensures Includes(ConversationName(c, user), OtherParticipants(c, user)[k].name)
  {
    var n := OtherParticipants(c, user)[k].name;
    IncludesIff(n, n);
    assert OccursAt(n, n, 0);
    JoinIncludesPart(Names(OtherParticipants(c, user)), ", ", k, n);
  }

  /** `conversations.flatMap(c => c.participants)`. */
  function AllParticipants(conversations: seq<Conversation>): (r: seq<User>)
    ensures forall p :: p in r <==> exists k :: 0 <= k < |conversations| && p in conversations[k].participants
  {
    if conversations == [] then []
    else
      var rest := AllParticipants(conversations[1..]);
      assert forall k :: 1 <= k < |conversations| ==> conversations[k] == conversations[1..][k - 1];
      conversations[0].participants + rest
  }

  /**
   * The author shown beside a message: the first participant, over the
   * conversations in order, whose id is the sender.
   */
  function SenderOf(conversations: seq<Conversation>, m: Message): (r: Option<User>)
    ensures r.Some? ==> m.sender == Some(r.value.id) && exists k :: 0 <= k < |conversations| && r.value in conversations[k].participants
    ensures r.None? <==> forall k :: 0 <= k < |conversations| ==> forall p :: p in conversations[k].participants ==> Some(p.id) != m.sender
    ensures r.Some? ==>
      exists i :: 0 <= i < |AllParticipants(conversations)| && AllParticipants(conversations)[i] == r.value
        && forall j :: 0 <= j < i ==> Some(AllParticipants(conversations)[j].id) != m.sender
  {
    var all := AllParticipants(conversations);
    var r := Find(all, (p: User) => Some(p.id) == m.sender);
    if r.None? then
      assert forall p :: p in all ==> Some(p.id) != m.sender;
      r
    else
      assert r.value in all;
      r
  }

  /** The message the composer appends. */
  function NewMessage(id: string, conversation: Conversation, user: Option<User>, content: string, now: string): Message {
    Message(id, Some(conversation.id), Some(UserIdOf(user)), None, None, content, now, Some(true), None)
  }

  class MessagesView {
    const service: TestApi.Store
    /** The signed-in user, from the session. */
    const user: Option<User>
    var conversations: seq<Conversation>
    var messages: seq<Message>
    var loading: bool
    var messageText: string
    var searchQuery: string
    var tabValue: int
    var active: Option<Conversation>

    /** Before the fetch: nothing loaded, loading, first tab. */
    constructor (service: TestApi.Store, user: Option<User>)
      ensures this.service == service && this.user == user
      ensures conversations == [] && messages == [] && loading && messageText == "" && searchQuery == ""
      ensures tabValue == 0 && active.None?
    {
      this.service := service;
      this.user := user;
      conversations, messages := [], [];
      loading := true;
      messageText, searchQuery := "", "";
      tabValue := 0;
      active := None;
    }

    /** The open conversation is one of the loaded ones. */
    predicate Valid()
      reads this
    {
      active.Some? ==> active.value in conversations
    }

    /** The messages effect: the open conversation's messages; nothing happens without one. */
    method FetchMessages()
      modifies this`messages, this`loading
      ensures active.None? ==> messages == old(messages) && loading == old(loading)
      ensures active.Some? ==> messages == TestApi.GetMessagesByConversation(service, active.value.id) && !loading
      ensures conversations == old(conversations) && active == old(active)
      ensures messageText == old(messageText) && searchQuery == old(searchQuery) && tabValue == old(tabValue)
    {
      if active.None? {
        return;
      }
      loading := true;
      messages := TestApi.GetMessagesByConversation(service, active.value.id);
      loading := false;
    }

    /** fetchConversations, then the messages effect for the first conversation it opens. */
    method FetchConversations()
      modifies this`conversations, this`active, this`messages, this`loading
      ensures conversations == TestApi.GetConversations(service)
      ensures active == (if conversations != [] then Some(conversations[0]) else old(active))
      ensures active.Some? ==> messages == TestApi.GetMessagesByConversation(service, active.value.id)
      ensures active.None? ==> messages == old(messages)
      ensures old(active).None? ==> Valid()
      ensures !loading
      ensures messageText == old(messageText) && searchQuery == old(searchQuery) && tabValue == old(tabValue)
    {
      loading := true;
      var data := TestApi.GetConversations(service);
      conversations := data;
      if |data| > 0 {
        active := Some(data[0]);
      }
      loading := false;
      FetchMessages();
    }

    /**
     * A click on a conversation opens it. The messages effect runs only when
     * the open conversation changes: re-clicking the open one keeps the
     * messages on screen, including those sent since they were loaded.
     */
    method Select(c: Conversation)
      requires c in conversations
      modifies this`active, this`messages, this`loading
      ensures active == Some(c) && Valid()
      ensures old(active) == Some(c) ==> messages == old(messages) && loading == old(loading)
      ensures old(active) != Some(c) ==>
        messages == TestApi.GetMessagesByConversation(service, c.id) && !loading
      ensures conversations == old(conversations)
      ensures messageText == old(messageText) && searchQuery == old(searchQuery) && tabValue == old(tabValue)
    {
      if active == Some(c) {
        return;
      }
      active := Some(c);
      FetchMessages();
    }

    method SetSearchQuery(q: string)
      modifies this`searchQuery
      ensures searchQuery == q
      ensures conversations == old(conversations) && messages == old(messages) && active == old(active)
      ensures messageText == old(messageText) && tabValue == old(tabValue)
    {
      searchQuery := q;
    }

    method SetTab(v: int)
      modifies this`tabValue
      ensures tabValue == v
      ensures conversations == old(conversations) && messages == old(messages) && active == old(active)
      ensures messageText == old(messageText) && searchQuery == old(searchQuery)
    {
      tabValue := v;
    }

    method SetMessageText(t: string)
      modifies this`messageText
      ensures messageText == t
      ensures conversations == old(conversations) && messages == old(messages) && active == old(active)
      ensures searchQuery == old(searchQuery) && tabValue == old(tabValue)
    {
      messageText := t;
    }

    /**
     * handleSendMessage: blank text or no open conversation does nothing;
     * otherwise the message is appended, already read, and the box cleared.
     */
    method Send(id: string, now: string)
      modifies this`messages, this`messageText
      ensures Trim(old(messageText)) == "" || old(active).None? ==>
        messages == old(messages) && messageText == old(messageText)
      ensures Trim(old(messageText)) != "" && old(active).Some? ==>
        messages == old(messages) + [NewMessage(id, old(active).value, user, old(messageText), now)]
        && messageText == ""
      ensures conversations == old(conversations) && active == old(active)
      ensures searchQuery == old(searchQuery) && tabValue == old(tabValue) && loading == old(loading)
    {
      if Trim(messageText) == "" || active.None? {
        return;
      }
      var m := NewMessage(id, active.value, user, messageText, now);
      messages := messages + [m];
      messageText := "";
    }

    /** The conversation list as shown under the current search and tab. */
    function Shown(): seq<Conversation>
      reads this
    {
      ShownConversations(conversations, searchQuery, tabValue)
    }
  }

  /** A sent message belongs to the open conversation, carries the signed-in user's id and the typed text, and is read. */
  lemma SentMessageFields(id: string, c: Conversation, user: Option<User>, content: string, now: string)
    ensures var m := NewMessage(id, c, user, content, now);
      m.conversationId == Some(c.id) && m.content == content && m.read == Some(true)
      && (user.Some? ==> m.sender == Some(user.value.id)) && (user.None? ==> m.sender == Some(""))
  {
  }
}
