/**
 * The site-wide assistant chat. With an API key the reply comes from a
 * language-model service, which is outside this model and is represented
 * by its outcome; without a key the reply is chosen by keyword rules.
 */
module Assistant {
  import Text
  import Chat

  const BOT_GREETING: string :=
    "Hello! I am the Wisecrew AI Assistant. I can help you with information about our Services, Products, or Internship programs. How can I assist you today?"

  const CONTACT_REPLY: string :=
    "You can reach us at 91-7845342880 or visit us at 44, Kanakkar street, Thiruvottiyur, Chennai."
  const SERVICES_REPLY: string :=
    "We offer Web Development, Mobile Apps, Digital Marketing, and Enterprise Software solutions."
  const BOT_DEFAULT: string :=
    "Thank you for your query. For detailed information, please request a demo or contact our support team."
  const EMPTY_ANSWER_REPLY: string := "I couldn't generate a response."
  const TROUBLE_REPLY: string := "I'm having trouble connecting right now. Please try again later."

  const BOT_RULES: seq<Chat.Rule> := [
    Chat.Rule(["contact"], CONTACT_REPLY),
    Chat.Rule(["service"], SERVICES_REPLY)
  ]

  /** What became of the request for a reply. */
  datatype ApiOutcome =
    | NoKey                   // no API key configured: the keyword rules answer
    | Answered(text: string)  // the service answered with this text (possibly empty)
    | Failed                  // the request threw

  /**
   * The bot's message for one user message: never empty, and without a key
   * always one of the three canned answers.
   */
  function BotReply(api: ApiOutcome, text: string): (r: string)
    ensures r != ""
    ensures api == NoKey ==> r in {CONTACT_REPLY, SERVICES_REPLY, BOT_DEFAULT}
  {
    match api
    case NoKey =>
      var r := Chat.Reply(BOT_RULES, BOT_DEFAULT, text);
      if r == BOT_DEFAULT then r
      else
        var k :| 0 <= k < |BOT_RULES| && r == BOT_RULES[k].reply;
        assert k == 0 || k == 1;
        r
    case Answered(answer) => if answer == "" then EMPTY_ANSWER_REPLY else answer
    case Failed => TROUBLE_REPLY
  }

  /**
   * Without a key, "contact" beats "service", in any letter case,
   * and anything else gets the default; with a key, the service's text is
   * passed through unless empty; a failure gives the error text.
   */
  lemma BotRouting(api: ApiOutcome, text: string)
    ensures api == NoKey && Chat.Mentions(text, ["contact"]) ==> BotReply(api, text) == CONTACT_REPLY
    ensures api == NoKey && !Chat.Mentions(text, ["contact"]) && Chat.Mentions(text, ["service"]) ==>
      BotReply(api, text) == SERVICES_REPLY
    ensures api == NoKey && !Chat.Mentions(text, ["contact"]) && !Chat.Mentions(text, ["service"]) ==>
      BotReply(api, text) == BOT_DEFAULT
    ensures api.Answered? && api.text != "" ==> BotReply(api, text) == api.text
    ensures api.Answered? && api.text == "" ==> BotReply(api, text) == EMPTY_ANSWER_REPLY
    ensures api == Failed ==> BotReply(api, text) == TROUBLE_REPLY
  {
    var lower := Text.ToLower(text);
    if api == NoKey {
      if Chat.MentionsAny(lower, ["contact"]) {
        Chat.FirstMatchWins(BOT_RULES, lower, BOT_DEFAULT, 0);
      } else if Chat.MentionsAny(lower, ["service"]) {
        Chat.FirstMatchWins(BOT_RULES, lower, BOT_DEFAULT, 1);
      } else {
        Chat.NoMatchFallsBack(BOT_RULES, lower, BOT_DEFAULT);
      }
    }
  }

  /**
   * The send button is disabled while the input is empty once trimmed, or a
   * reply is loading: exactly when the input is one the send handler ignores
   * or a reply is loading, so pressing an enabled button always sends.
   */
  predicate SendDisabled(input: string, loading: bool): (b: bool)
    ensures b <==> Text.IsBlank(input) || loading
  {
    Text.TrimEmptyIffBlank(input);
    |Text.Trim(input)| == 0 || loading
  }

  /** The assistant's send: the user's line, then exactly one bot line, the reply or the error text. */
  method BotSend(chat: Chat.ChatWindow, userId: string, botId: string, api: ApiOutcome)
    modifies chat
    ensures Text.Trim(old(chat.input)) == "" ==>
      chat.messages == old(chat.messages) && chat.input == old(chat.input) && chat.loading == old(chat.loading)
    ensures Text.Trim(old(chat.input)) != "" ==>
      && chat.messages == old(chat.messages) + [Chat.Message(userId, Chat.User, old(chat.input)),
                                               Chat.Message(botId, Chat.Bot, BotReply(api, old(chat.input)))]
      && chat.input == "" && !chat.loading
      && SendDisabled(chat.input, chat.loading)
    ensures chat.isOpen == old(chat.isOpen)
  {
    chat.Send(userId, botId, text => BotReply(api, text));
    Text.TrimEmptyIffBlank(chat.input);
  }
}
