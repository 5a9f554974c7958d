/**
 * `/api/chat`: the keyword classifier used when the completion service fails, the
 * random pick within a category, and the chat log the route writes and reads.
 */
module Chat {
  import opened Wrappers
  import opened JsText
  import Seqs

  datatype Category = Greeting | Help | Booking | Default

  const GREETING_WORDS: seq<string> := ["hello", "hi", "hey", "greetings"]
  const HELP_WORDS: seq<string> := ["help", "support", "assist"]
  const BOOKING_WORDS: seq<string> := ["book", "schedule", "appointment", "reservation"]

  /** How many fixed replies each category has. */
  function ReplyCount(c: Category): nat
  {
    match c
    case Greeting => 3
    case Help => 2
    case Booking => 2
    case Default => 3
  }

  /** The `i`-th fixed reply of a category. */
  function ReplyText(c: Category, i: nat): string
    requires i < ReplyCount(c)
  {
    match c
    case Greeting =>
      if i == 0 then "Hello! How can I help you today?"
      else if i == 1 then "Hi there! Welcome to our support chat."
      else "Greetings! What can I assist you with?"
    case Help =>
      if i == 0 then "I'm here to help with booking inquiries, account issues, and general questions."
      else "You can ask me about our services, booking process, or account management."
    case Booking =>
      if i == 0 then "To make a booking, please provide the service you're interested in and your preferred date and time."
      else "Our booking system is available 24/7. Let me know which service you'd like to book."
    case Default =>
      if i == 0 then "I apologize, but I'm currently experiencing connection issues. Please try again later or contact our support team directly."
      else if i == 1 then "Thanks for your message. Our system is currently under maintenance. Please try again in a few minutes."
      else "I'm sorry, I couldn't process your request right now. Please try again or email support@yourservice.com."
  }

  /** The reply list of a category, as `fallbackResponses` holds it. */
  function Responses(c: Category): (r: seq<string>)
    ensures |r| == ReplyCount(c) > 0
  {
    seq(ReplyCount(c), i requires 0 <= i < ReplyCount(c) => ReplyText(c, i))
  }

  /** An alternation regex without anchors: some alternative occurs anywhere in `s`. */
  function MatchesAny(s: string, words: seq<string>): (b: bool)
    ensures b <==> exists i :: 0 <= i < |words| && Contains(s, words[i])
  {
    if words == [] then false
    else
      Contains(s, words[0]) || (
        var rest := MatchesAny(s, words[1..]);
        assert rest <==> exists i :: 1 <= i < |words| && Contains(s, words[i]) by {
          forall i | 1 <= i < |words| ensures words[1..][i - 1] == words[i] { }
        }
        rest)
  }

  /**
   * The category `getFallbackResponse` picks: the first of greeting, help and booking
   * whose words occur in the lower-cased message, else the default.
   */
  function Classify(message: string): (c: Category)
    ensures var m := ToLower(message);
      (c == Greeting <==> MatchesAny(m, GREETING_WORDS))
      && (c == Help <==> !MatchesAny(m, GREETING_WORDS) && MatchesAny(m, HELP_WORDS))
      && (c == Booking <==> !MatchesAny(m, GREETING_WORDS) && !MatchesAny(m, HELP_WORDS) && MatchesAny(m, BOOKING_WORDS))
      && (c == Default <==> !MatchesAny(m, GREETING_WORDS) && !MatchesAny(m, HELP_WORDS) && !MatchesAny(m, BOOKING_WORDS))
  {
    var m := ToLower(message);
    if MatchesAny(m, GREETING_WORDS) then Greeting
    else if MatchesAny(m, HELP_WORDS) then Help
    else if MatchesAny(m, BOOKING_WORDS) then Booking
    else Default
  }

  /** `Math.floor(Math.random() * length)`, with the random draw `rand` in [0, 1). */
  function RandomIndex(length: nat, rand: real): (i: int)
    requires length > 0 && 0.0 <= rand < 1.0
    ensures 0 <= i < length
  {
    var x := rand * length as real;
    assert x < length as real;
    x.Floor
  }

  /** Every reply of a list can be drawn: the draw `i / length` picks index `i`. */
  lemma EveryIndexReachable(length: nat, i: nat)
    requires i < length
    ensures 0.0 <= i as real / length as real < 1.0
    ensures RandomIndex(length, i as real / length as real) == i
  {
    var r := i as real / length as real;
    assert r * length as real == i as real;
  }

  /** `getFallbackResponse`: a reply from the list of the message's category. */
  function FallbackResponse(message: string, rand: real): (reply: string)
    requires 0.0 <= rand < 1.0
    ensures reply in Responses(Classify(message))
  {
    var responses := Responses(Classify(message));
    responses[RandomIndex(|responses|, rand)]
  }

  /** Matching is on substrings: "this" contains "hi", so it is taken for a greeting. */
  lemma SubstringGreeting()
    ensures Classify("this") == Greeting
  {
    var m := ToLower("this");
    assert m == "this" by {
      assert m[0] == 't' && m[1] == 'h' && m[2] == 'i' && m[3] == 's';
    }
    ContainsAt(m, "hi", 1);
    assert GREETING_WORDS[1] == "hi";
  }

  /** A greeting word wins over help and booking words in the same message. */
  lemma GreetingFirst(message: string)
    requires MatchesAny(ToLower(message), GREETING_WORDS)
    requires MatchesAny(ToLower(message), BOOKING_WORDS)
    ensures Classify(message) == Greeting
    ensures FallbackResponse(message, 0.0) == ReplyText(Greeting, 0)
  {
  }

  /** A stored chat row. */
  datatype ChatMessage = ChatMessage(userId: string, message: string, isBot: bool)

  /** Which store write throws, if any. */
  datatype ChatFault = NoFault | UserWriteFails | BotWriteFails

  datatype HistoryResponse =
    | UserIdRequired   // 400
    | HistoryError     // 500
    | History(chatHistory: seq<ChatMessage>)

  function ByUser(userId: string): ChatMessage -> bool
  {
    (m: ChatMessage) => m.userId == userId
  }

  /** The reply the route stores: the completion when the call returns, else the fallback. */
  function BotReply(message: string, completion: Option<string>, rand: real): (reply: string)
    requires 0.0 <= rand < 1.0
    ensures completion.Some? ==> reply == completion.value
    ensures completion.None? ==> reply in Responses(Classify(message))
  {
    match completion
    case Some(text) => text
    case None => FallbackResponse(message, rand)
  }

  /** The chat message table, in creation order. */
  class ChatLog {
    var messages: seq<ChatMessage>

    constructor ()
      ensures messages == []
    {
      messages := [];
    }

    /**
     * `POST /api/chat`: stores the user's message, obtains a reply (`completion` is
     * None when the completion call throws, and the keyword fallback is used), then
     * stores the reply. A failed write gives 500; writes made before it remain.
     */
    method Post(userId: string, message: string, completion: Option<string>, rand: real, fault: ChatFault)
      returns (status: int, reply: Option<string>)
      requires 0.0 <= rand < 1.0
      modifies this
      ensures fault == UserWriteFails ==> status == 500 && reply.None? && messages == old(messages)
      ensures fault == BotWriteFails ==>
        status == 500 && reply.None? && messages == old(messages) + [ChatMessage(userId, message, false)]
      ensures fault == NoFault ==>
        status == 200 && reply == Some(BotReply(message, completion, rand))
        && messages == old(messages) + [ChatMessage(userId, message, false),
                                        ChatMessage(userId, BotReply(message, completion, rand), true)]
    {
      if fault == UserWriteFails {
        return 500, None;
      }
      messages := messages + [ChatMessage(userId, message, false)];
      var botResponse: string;
      if completion.Some? {
        botResponse := completion.value;
      } else {
        botResponse := FallbackResponse(message, rand);
      }
      if fault == BotWriteFails {
        return 500, None;
      }
      messages := messages + [ChatMessage(userId, botResponse, true)];
      return 200, Some(botResponse);
    }

    /** `GET /api/chat?userId=`: 400 without an id, otherwise that user's messages in creation order. */
    function Get(userId: Option<string>, storeFails: bool): (r: HistoryResponse)
      reads this
      ensures r == UserIdRequired <==> userId.None? || userId.value == ""
      ensures r.History? ==> forall m :: m in r.chatHistory <==> m in messages && m.userId == userId.value
      ensures r.History? ==> Seqs.IsSubsequence(r.chatHistory, messages)
      ensures r.History? ==>
        forall m :: multiset(r.chatHistory)[m] == if m.userId == userId.value then multiset(messages)[m] else 0
      ensures userId.Some? && userId.value != "" ==> (r == HistoryError <==> storeFails)
    {
      if userId.None? || userId.value == "" then UserIdRequired
      else if storeFails then HistoryError
      else
        var h := Seqs.Filter(messages, ByUser(userId.value));
        assert forall m :: m in h <==> m in messages && m.userId == userId.value by {
          forall m ensures m in h <==> m in messages && m.userId == userId.value {
            Seqs.FilterMembership(messages, ByUser(userId.value), m);
          }
        }
        Seqs.FilterIsSubsequence(messages, ByUser(userId.value));
        assert forall m :: multiset(h)[m] == if m.userId == userId.value then multiset(messages)[m] else 0 by {
          forall m ensures multiset(h)[m] == if m.userId == userId.value then multiset(messages)[m] else 0 {
            Seqs.FilterCount(messages, ByUser(userId.value), m);
          }
        }
        History(h)
    }
  }

  /** After a successful post, the user's history ends with their message followed by the reply. */
  lemma HistoryAfterPost(log: seq<ChatMessage>, userId: string, message: string, reply: string)
    ensures Seqs.Filter(log + [ChatMessage(userId, message, false), ChatMessage(userId, reply, true)], ByUser(userId))
         == Seqs.Filter(log, ByUser(userId)) + [ChatMessage(userId, message, false), ChatMessage(userId, reply, true)]
  {
    Seqs.FilterAppend(log, [ChatMessage(userId, message, false), ChatMessage(userId, reply, true)], ByUser(userId));
    OwnRowsKept(userId, message, reply);
  }

  lemma OwnRowsKept(userId: string, message: string, reply: string)
    ensures Seqs.Filter([ChatMessage(userId, message, false), ChatMessage(userId, reply, true)], ByUser(userId))
         == [ChatMessage(userId, message, false), ChatMessage(userId, reply, true)]
  {
    var pair := [ChatMessage(userId, message, false), ChatMessage(userId, reply, true)];
    var p := ByUser(userId);
    assert p(pair[0]) && p(pair[1]);
    Seqs.FilterAll(pair, p);
  }
}
