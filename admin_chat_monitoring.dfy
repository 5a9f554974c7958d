/**
 * The admin chat monitor's search box: which conversations stay listed for a query.
 */
module AdminChatMonitoring {
  import opened Wrappers
  import opened JsText
  import Seqs

  /** The user a conversation belongs to; either detail may be missing. */
  datatype ChatUser = ChatUser(name: Option<string>, email: Option<string>)

  datatype Message = Message(message: string, isBot: bool)

  /** A conversation as the monitor receives it; its user may be missing. */
  datatype Conversation = Conversation(user: Option<ChatUser>, messages: seq<Message>)

  /** `convo.user?.name?.toLowerCase() || ''`. */
  function NameText(c: Conversation): string
  {
    if c.user.Some? && c.user.value.name.Some? then ToLower(c.user.value.name.value) else ""
  }

  /** `convo.user?.email?.toLowerCase() || ''`. */
  function EmailText(c: Conversation): string
  {
    if c.user.Some? && c.user.value.email.Some? then ToLower(c.user.value.email.value) else ""
  }

  /** `messages.some(msg => msg.message.toLowerCase().includes(q))`. */
  function SomeMessageContains(messages: seq<Message>, q: string): (b: bool)
    ensures b <==> exists i :: 0 <= i < |messages| && Contains(ToLower(messages[i].message), q)
  {
    if messages == [] then false
    else if Contains(ToLower(messages[0].message), q) then true
    else
      var rest := SomeMessageContains(messages[1..], q);
      assert rest <==> exists i :: 1 <= i < |messages| && Contains(ToLower(messages[i].message), q) by {
        forall i | 1 <= i < |messages| ensures messages[1..][i - 1] == messages[i] { }
      }
      rest
  }

  /** The `filter` callback: user details first, then message contents. */
  predicate Matches(query: string, c: Conversation)
  {
    var q := ToLower(query);
    if Contains(NameText(c), q) || Contains(EmailText(c), q) then true
    else SomeMessageContains(c.messages, q)
  }

  function MatchesQuery(query: string): Conversation -> bool
  {
    (c: Conversation) => Matches(query, c)
  }

  /** `filteredConversations`. */
  function FilteredConversations(conversations: seq<Conversation>, query: string): seq<Conversation>
  {
    Seqs.Filter(conversations, MatchesQuery(query))
  }

  /**
   * A conversation is listed iff it is one of the conversations and the lower-cased
   * query occurs in its lower-cased user name, its lower-cased email or one of its
   * lower-cased messages; the listing keeps the conversations' order, and every copy
   * of a listed conversation.
   */
  lemma FilterMeaning(conversations: seq<Conversation>, query: string, c: Conversation)
    ensures c in FilteredConversations(conversations, query) <==>
      c in conversations
      && (Contains(NameText(c), ToLower(query))
          || Contains(EmailText(c), ToLower(query))
          || exists i :: 0 <= i < |c.messages| && Contains(ToLower(c.messages[i].message), ToLower(query)))
    ensures Seqs.IsSubsequence(FilteredConversations(conversations, query), conversations)
    ensures multiset(FilteredConversations(conversations, query))[c]
         == if Matches(query, c) then multiset(conversations)[c] else 0
  {
    Seqs.FilterMembership(conversations, MatchesQuery(query), c);
    Seqs.FilterCount(conversations, MatchesQuery(query), c);
    Seqs.FilterIsSubsequence(conversations, MatchesQuery(query));
  }

  /** An empty search box lists every conversation. */
  lemma EmptyQueryKeepsAll(conversations: seq<Conversation>)
    ensures FilteredConversations(conversations, "") == conversations
  {
    forall i | 0 <= i < |conversations|
      ensures MatchesQuery("")(conversations[i])
    {
      EmptyIsContained(NameText(conversations[i]));
    }
    Seqs.FilterAll(conversations, MatchesQuery(""));
  }

  /**
   * A missing name or email is searched as the empty string: without a user, only
   * the messages can match a non-empty query.
   */
  lemma MissingUserSearchesMessages(query: string, c: Conversation)
    requires c.user.None?
    requires query != ""
    ensures Matches(query, c) <==>
      exists i :: 0 <= i < |c.messages| && Contains(ToLower(c.messages[i].message), ToLower(query))
  {
    assert |ToLower(query)| > 0;
  }
}
