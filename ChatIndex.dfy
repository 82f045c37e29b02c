/**
 * The chat page: choosing the assistant's reply to a message, and the message
 * list that sending, starting a new chat and selecting a chat change.
 */
module ChatIndex {
  import opened Wrappers
  import opened Text
  import LegalKnowledge

  // The small-talk groups, tried in this order; a message is in a group when
  // its lower-cased text equals one of the phrases exactly (no trimming).
  const HELLO_PHRASES: set<string> := {"hi", "hello", "hey", "hii", "helo", "namaste", "namaskar"}
  const DAY_PHRASES: set<string> := {"good morning", "good afternoon", "good evening", "good night"}
  const HOW_PHRASES: set<string> := {"how are you", "how r u", "how are u"}
  const THANKS_PHRASES: set<string> := {"thanks", "thank you", "thankyou", "thx"}
  const BYE_PHRASES: set<string> := {"bye", "goodbye", "see you", "tata"}

  const HELLO_REPLY: string := "Hello! I'm LaWEase, your intelligent legal assistant. I have comprehensive knowledge of Indian law and constitution. How can I help you today?"
  const DAY_REPLY: string := "Good day! I'm LaWEase, ready to assist you with any questions about Indian law and constitution."
  const HOW_REPLY: string := "I'm functioning perfectly, thank you! Ready to help you with Indian constitutional law. What would you like to know?"
  const THANKS_REPLY: string := "You're welcome! Feel free to ask if you have more questions about Indian law."
  const BYE_REPLY: string := "Goodbye! Feel free to return anytime you need legal assistance."

  /** The reply used when neither a greeting nor any responder answers. */
  const FALLBACK_REPLY: string := "I'm LaWEase, your intelligent legal assistant with comprehensive knowledge of Indian law and constitution. Ask me about fundamental rights, landmark cases, constitutional provisions, legal doctrines, Parliament, judiciary, or any aspect of Indian constitutional law!"

  /** Every phrase of every group. */
  function AllGreetings(): set<string> {
    HELLO_PHRASES + DAY_PHRASES + HOW_PHRASES + THANKS_PHRASES + BYE_PHRASES
  }

  /** No phrase is empty, and none begins or ends with a space. */
  lemma GreetingsUnpadded()
    ensures forall p :: p in AllGreetings() ==> |p| > 0 && p[0] != ' ' && p[|p| - 1] != ' '
  {
  }

  /** The groups are pairwise disjoint, so the order they are tried in does not matter. */
  lemma GreetingGroupsDisjoint()
    ensures HELLO_PHRASES !! DAY_PHRASES && HELLO_PHRASES !! HOW_PHRASES
    ensures HELLO_PHRASES !! THANKS_PHRASES && HELLO_PHRASES !! BYE_PHRASES
    ensures DAY_PHRASES !! HOW_PHRASES && DAY_PHRASES !! THANKS_PHRASES && DAY_PHRASES !! BYE_PHRASES
    ensures HOW_PHRASES !! THANKS_PHRASES && HOW_PHRASES !! BYE_PHRASES && THANKS_PHRASES !! BYE_PHRASES
  {
  }

  /**
   * The canned reply for the lower-cased message `lower`, if it is small talk.
   * The groups share no phrase, so each group's membership alone decides the
   * reply, whatever the order they are tried in.
   */
  function Greeting(lower: string): (r: Option<string>)
    ensures r.None? <==> lower !in AllGreetings()
    ensures lower in HELLO_PHRASES ==> r == Some(HELLO_REPLY)
    ensures lower in DAY_PHRASES ==> r == Some(DAY_REPLY)
    ensures lower in HOW_PHRASES ==> r == Some(HOW_REPLY)
    ensures lower in THANKS_PHRASES ==> r == Some(THANKS_REPLY)
    ensures lower in BYE_PHRASES ==> r == Some(BYE_REPLY)
  {
    if lower in HELLO_PHRASES then Some(HELLO_REPLY)
    else if lower in DAY_PHRASES then Some(DAY_REPLY)
    else if lower in HOW_PHRASES then Some(HOW_REPLY)
    else if lower in THANKS_PHRASES then Some(THANKS_REPLY)
    else if lower in BYE_PHRASES then Some(BYE_REPLY)
    else None
  }

  /** A message that begins or ends with a space is no phrase. */
  lemma PaddedNotGreeting(m: string)
    requires |m| > 0 && (m[0] == ' ' || m[|m| - 1] == ' ')
    ensures m !in AllGreetings()
  {
    GreetingsUnpadded();
  }

  /**
   * The match is anchored and untrimmed: no phrase begins or ends with a
   * space, so a message with a leading or trailing space is never small talk.
   */
  lemma GreetingUntrimmed(lower: string)
    ensures Greeting(lower + " ") == None
    ensures Greeting(" " + lower) == None
  {
    var t, l := lower + " ", " " + lower;
    PaddedNotGreeting(t);
    PaddedNotGreeting(l);
  }

  /** A JavaScript value counts as true: a present, non-empty string. */
  predicate Truthy(a: Option<string>) {
    a.Some? && a.value != ""
  }

  /** JavaScript `a || b` on string-or-null values. */
  function Or(a: Option<string>, b: Option<string>): (r: Option<string>)
    ensures Truthy(r) <==> Truthy(a) || Truthy(b)
    ensures Truthy(a) ==> r == a
    ensures !Truthy(a) ==> r == b
  {
    if Truthy(a) then a else b
  }

  /**
   * The assistant's reply to `content`: small talk first; otherwise the first
   * truthy answer of the situational, detailed and basic responders; otherwise
   * the fixed fallback. `situational` and `detailed` stand for responders
   * outside this model.
   */
  function SelectAnswer(content: string, situational: string -> Option<string>,
                        detailed: string -> Option<string>): (r: string)
    ensures r != ""
    ensures Greeting(ToLower(content)).Some? ==> r == Greeting(ToLower(content)).value
    ensures Greeting(ToLower(content)).None? ==>
      r == (if Truthy(situational(content)) then situational(content).value
            else if Truthy(detailed(content)) then detailed(content).value
            else if Truthy(LegalKnowledge.GetLegalResponse(content))
            then LegalKnowledge.GetLegalResponse(content).value
            else FALLBACK_REPLY)
  {
    var lower := ToLower(content);
    var answer := match Greeting(lower)
      case Some(reply) => Some(reply)
      case None => Or(Or(situational(content), detailed(content)), LegalKnowledge.GetLegalResponse(content));
    if Truthy(answer) then answer.value else FALLBACK_REPLY
  }

  /** Small talk short-circuits: the responders' answers are never consulted. */
  lemma GreetingIgnoresResponders(content: string, s1: string -> Option<string>, d1: string -> Option<string>,
                                  s2: string -> Option<string>, d2: string -> Option<string>)
    requires ToLower(content) in AllGreetings()
    ensures SelectAnswer(content, s1, d1) == SelectAnswer(content, s2, d2)
  {
  }

  /** Without small talk or any responder answer, the reply is the fixed fallback. */
  lemma FallbackWhenUnanswered(content: string, situational: string -> Option<string>,
                               detailed: string -> Option<string>)
    requires ToLower(content) !in AllGreetings()
    requires !Truthy(situational(content)) && !Truthy(detailed(content))
    requires LegalKnowledge.GetLegalResponse(content).None?
    ensures SelectAnswer(content, situational, detailed) == FALLBACK_REPLY
  {
  }

  datatype Role = User | Assistant

  /**
   * A chat message. `id` is the millisecond clock reading its identifier
   * string is rendered from.
   */
  datatype Message = Message(id: int, role: Role, content: string, timestamp: int)

  /** The chat page's message list and current chat identifier. */
  class ChatSession {
    var messages: seq<Message>
    var currentChatId: string

    constructor()
      ensures messages == [] && currentChatId == "current"
    {
      messages := [];
      currentChatId := "current";
    }

    /** Sending: exactly one user message with the given content is appended. */
    method SendMessage(content: string, now: int)
      modifies this
      ensures messages == old(messages) + [Message(now, User, content, now)]
      ensures currentChatId == old(currentChatId)
    {
      messages := messages + [Message(now, User, content, now)];
    }

    /**
     * The delayed reply to `content`, at clock reading `now`: exactly one
     * assistant message, never empty, is appended.
     */
    method DeliverReply(content: string, now: int, situational: string -> Option<string>,
                        detailed: string -> Option<string>)
      modifies this
      ensures |messages| == |old(messages)| + 1 && messages[..|old(messages)|] == old(messages)
      ensures messages[|messages| - 1].role == Assistant && messages[|messages| - 1].content != ""
      ensures messages[|messages| - 1] ==
        Message(now + 1, Assistant, SelectAnswer(content, situational, detailed), now)
      ensures currentChatId == old(currentChatId)
    {
      var reply := SelectAnswer(content, situational, detailed);
      messages := messages + [Message(now + 1, Assistant, reply, now)];
    }

    /** A new chat empties the list and takes the identifier made from the clock. */
    method NewChat(newId: string)
      modifies this
      ensures messages == [] && currentChatId == newId
    {
      messages := [];
      currentChatId := newId;
    }

    /** Selecting a chat makes it current and empties the list. */
    method SelectChat(id: string)
      modifies this
      ensures messages == [] && currentChatId == id
    {
      currentChatId := id;
      messages := [];
    }
  }
}
