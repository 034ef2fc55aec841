/**
 * What the site's three chat windows share: the message record, the
 * keyword rules their canned replies are chosen by (lower-cased text,
 * substring match, first rule that matches wins) and the window state with
 * its greeting-on-open and append-only send.
 */
module Chat {
  import Text

  datatype Sender = User | Bot

  /** One line of a conversation; `id` is the time stamp or "init" for the greeting. */
  datatype Message = Message(id: string, sender: Sender, text: string)

  /** A canned reply and the keywords that select it. */
  datatype Rule = Rule(keywords: seq<string>, reply: string)

  /** `lower.includes(k1) || lower.includes(k2) || ...`. */
  function MentionsAny(lower: string, keywords: seq<string>): (r: bool)
    ensures r <==> exists k | 0 <= k < |keywords| :: Text.Contains(lower, keywords[k])
  {
    if keywords == [] then false
    else
      var rest := MentionsAny(lower, keywords[1..]);
      assert forall k | 1 <= k < |keywords| :: keywords[k] == keywords[1..][k - 1];
      Text.Contains(lower, keywords[0]) || rest
  }

  /** The message, lower-cased, contains one of the keywords. */
  predicate Mentions(text: string, keywords: seq<string>) {
    MentionsAny(Text.ToLower(text), keywords)
  }

  /** The reply of the first rule that `lower` mentions, or `fallback` when it mentions none. */
  function FirstMatch(rules: seq<Rule>, lower: string, fallback: string): (r: string)
    ensures r == fallback || exists k | 0 <= k < |rules| :: r == rules[k].reply
  {
    if rules == [] then fallback
    else if MentionsAny(lower, rules[0].keywords) then rules[0].reply
    else
      var r := FirstMatch(rules[1..], lower, fallback);
      assert forall k | 1 <= k < |rules| :: rules[k] == rules[1..][k - 1];
      r
  }

  /** The reply to a message: the rules are tried on its lower-cased text; it is the fallback or some rule's reply. */
  function Reply(rules: seq<Rule>, fallback: string, text: string): (r: string)
    ensures r == fallback || exists k | 0 <= k < |rules| :: r == rules[k].reply
  {
    FirstMatch(rules, Text.ToLower(text), fallback)
  }

  /** First match wins: the first rule the text mentions decides, whatever later rules say. */
  lemma {:induction false} FirstMatchWins(rules: seq<Rule>, lower: string, fallback: string, k: nat)
    requires k < |rules| && MentionsAny(lower, rules[k].keywords)
    requires forall j | 0 <= j < k :: !MentionsAny(lower, rules[j].keywords)
    ensures FirstMatch(rules, lower, fallback) == rules[k].reply
  {
    if k > 0 {
      assert !MentionsAny(lower, rules[0].keywords);
      assert rules[1..][k - 1] == rules[k];
      FirstMatchWins(rules[1..], lower, fallback, k - 1);
    }
  }

  /** Text that mentions no keyword of any rule gets the fallback reply. */
  lemma {:induction false} NoMatchFallsBack(rules: seq<Rule>, lower: string, fallback: string)
    requires forall j | 0 <= j < |rules| :: !MentionsAny(lower, rules[j].keywords)
    ensures FirstMatch(rules, lower, fallback) == fallback
  {
    if rules != [] {
      assert !MentionsAny(lower, rules[0].keywords);
      NoMatchFallsBack(rules[1..], lower, fallback);
    }
  }

  /** Routing ignores case: a message and its lower-cased form get the same reply. */
  lemma ReplyIgnoresCase(rules: seq<Rule>, fallback: string, text: string)
    ensures Reply(rules, fallback, Text.ToLower(text)) == Reply(rules, fallback, text)
  {
    Text.ToLowerFacts(text);
  }

  /** One chat window. */
  class ChatWindow {
    var isOpen: bool
    var messages: seq<Message>
    var input: string
    var loading: bool
    /** The bot's first message, shown when the window first opens. */
    const greeting: string

    constructor(greeting: string)
      ensures !isOpen && messages == [] && input == "" && !loading
      ensures this.greeting == greeting
    {
      isOpen := false;
      messages := [];
      input := "";
      loading := false;
      this.greeting := greeting;
    }

    /** The launcher button; an empty conversation starts with the greeting. */
    method Open()
      modifies this
      ensures isOpen
      ensures old(messages) == [] ==> messages == [Message("init", Bot, greeting)]
      ensures old(messages) != [] ==> messages == old(messages)
      ensures input == old(input) && loading == old(loading)
    {
      isOpen := true;
      if messages == [] {
        messages := [Message("init", Bot, greeting)];
      }
    }

    /** The close button; the conversation is kept. */
    method Close()
      modifies this
      ensures !isOpen
      ensures messages == old(messages) && input == old(input) && loading == old(loading)
    {
      isOpen := false;
    }

    /** Typing into the input box. */
    method Type(text: string)
      modifies this
      ensures input == text
      ensures isOpen == old(isOpen) && messages == old(messages) && loading == old(loading)
    {
      input := text;
    }

    /**
     * `handleSend`, with the wait for the reply collapsed into the call:
     * input that is empty once trimmed is ignored; otherwise the user's message and then exactly
     * one bot message, `reply` of the user's text, are appended, the input is
     * cleared and the window is no longer loading. `userId` and `botId` stand
     * for the two time stamps.
     */
    method Send(userId: string, botId: string, reply: string -> string)
      modifies this
      ensures Text.Trim(old(input)) == "" ==>
        messages == old(messages) && input == old(input) && loading == old(loading)
      ensures Text.Trim(old(input)) != "" ==>
        && messages == old(messages) + [Message(userId, User, old(input)), Message(botId, Bot, reply(old(input)))]
        && input == "" && !loading
      ensures isOpen == old(isOpen)
    {
      var userMsg := input;
      if Text.Trim(userMsg) == "" {
        return;
      }
      messages := messages + [Message(userId, User, userMsg)];
      input := "";
      loading := true;
      var response := reply(userMsg);
      messages := messages + [Message(botId, Bot, response)];
      loading := false;
    }
  }
}
