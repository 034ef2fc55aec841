/**
 * The publications page: the research assistant chat and the topic
 * generator, whose result arrives on a timer.
 */
module Publications {
  import Text
  import Chat

  const RESEARCH_GREETING: string :=
    "Greetings! I am Athena, your Research Consultant. I can assist with journal selection (IEEE/Scopus), formatting guidelines, or refining your research topic. How can I assist you today?"

  const FORMAT_KEYWORDS: seq<string> := ["ieee", "format"]
  const TOPIC_KEYWORDS: seq<string> := ["topic", "suggest"]
  const PLAGIARISM_KEYWORDS: seq<string> := ["plagiarism", "check"]

  const FORMAT_REPLY: string :=
    "For IEEE formatting, ensure your paper follows the two-column format, uses Times New Roman (10pt for body), and references are numbered in square brackets [1]. Would you like me to generate a template?"
  const TOPIC_REPLY: string :=
    "Based on current trends, here are 3 hot topics: 1) Federated Learning in Healthcare, 2) Zero-Knowledge Proofs for Blockchain Privacy, 3) AI-driven Material Discovery. Which domain interests you?"
  const PLAGIARISM_REPLY: string :=
    "We offer Turnitin and iThenticate reports. A similarity index below 10-15% is generally required for high-impact journals. Shall I schedule a check for your manuscript?"
  const RESEARCH_DEFAULT: string :=
    "I can certainly help with that. Could you provide more specific details about your research domain?"

  const RESEARCH_RULES: seq<Chat.Rule> := [
    Chat.Rule(FORMAT_KEYWORDS, FORMAT_REPLY),
    Chat.Rule(TOPIC_KEYWORDS, TOPIC_REPLY),
    Chat.Rule(PLAGIARISM_KEYWORDS, PLAGIARISM_REPLY)
  ]

  /** The research assistant's reply to a message: always one of its four canned answers. */
  function ResearchReply(text: string): (r: string)
    ensures r in {FORMAT_REPLY, TOPIC_REPLY, PLAGIARISM_REPLY, RESEARCH_DEFAULT}
  {
    var r := Chat.Reply(RESEARCH_RULES, RESEARCH_DEFAULT, text);
    if r == RESEARCH_DEFAULT then r
    else
      var k :| 0 <= k < |RESEARCH_RULES| && r == RESEARCH_RULES[k].reply;
      assert k == 0 || k == 1 || k == 2;
      r
  }

  /**
   * The research assistant's routing on the lower-cased message: formatting
   * first, then topics, then plagiarism checks, then the default reply.
   */
  lemma ResearchRouting(text: string)
    ensures Chat.Mentions(text, FORMAT_KEYWORDS) ==> ResearchReply(text) == FORMAT_REPLY
    ensures !Chat.Mentions(text, FORMAT_KEYWORDS) && Chat.Mentions(text, TOPIC_KEYWORDS) ==>
      ResearchReply(text) == TOPIC_REPLY
    ensures !Chat.Mentions(text, FORMAT_KEYWORDS) && !Chat.Mentions(text, TOPIC_KEYWORDS) && Chat.Mentions(text, PLAGIARISM_KEYWORDS) ==>
      ResearchReply(text) == PLAGIARISM_REPLY
    ensures !Chat.Mentions(text, FORMAT_KEYWORDS) && !Chat.Mentions(text, TOPIC_KEYWORDS) && !Chat.Mentions(text, PLAGIARISM_KEYWORDS) ==>
      ResearchReply(text) == RESEARCH_DEFAULT
  {
    var lower := Text.ToLower(text);
    var rules := RESEARCH_RULES;
    if Chat.MentionsAny(lower, FORMAT_KEYWORDS) {
      Chat.FirstMatchWins(rules, lower, RESEARCH_DEFAULT, 0);
    } else if Chat.MentionsAny(lower, TOPIC_KEYWORDS) {
      Chat.FirstMatchWins(rules, lower, RESEARCH_DEFAULT, 1);
    } else if Chat.MentionsAny(lower, PLAGIARISM_KEYWORDS) {
      Chat.FirstMatchWins(rules, lower, RESEARCH_DEFAULT, 2);
    } else {
      Chat.NoMatchFallsBack(rules, lower, RESEARCH_DEFAULT);
    }
  }

  /** The research assistant's send: the user's line, then exactly one reply chosen by the keyword rules. */
  method ResearchSend(chat: Chat.ChatWindow, userId: string, botId: string)
    modifies chat
    ensures Text.Trim(old(chat.input)) == "" ==>
      chat.messages == old(chat.messages) && chat.input == old(chat.input) && chat.loading == old(chat.loading)
    ensures Text.Trim(old(chat.input)) != "" ==>
      && chat.messages == old(chat.messages) + [Chat.Message(userId, Chat.User, old(chat.input)),
                                               Chat.Message(botId, Chat.Bot, ResearchReply(old(chat.input)))]
      && chat.input == "" && !chat.loading
    ensures chat.isOpen == old(chat.isOpen)
  {
    chat.Send(userId, botId, ResearchReply);
  }

  /** The four titles the generator proposes for a domain, each of which names the domain. */
  function TopicTitles(domain: string): (r: seq<string>)
    ensures |r| == 4
    ensures forall i | 0 <= i < |r| :: Text.Contains(r[i], domain)
  {
    var a := "Advanced Deep Learning Architectures for ";
    var b := "Ethical Implications of ";
    var c := "A Comparative Analysis of ";
    var d := "Sustainable Approaches to ";
    Text.ContainsInfix(a, domain, " Optimization");
    Text.ContainsInfix(b, domain, " in Modern Society");
    Text.ContainsInfix(c, domain, " Algorithms using Cloud Computing");
    Text.ContainsInfix(d, domain, " Implementation");
    [a + domain + " Optimization",
     b + domain + " in Modern Society",
     c + domain + " Algorithms using Cloud Computing",
     d + domain + " Implementation"]
  }

  /** Different domains give different title lists. */
  lemma TopicTitlesInjective(d1: string, d2: string)
    requires TopicTitles(d1) == TopicTitles(d2)
    ensures d1 == d2
  {
    var p := "Sustainable Approaches to ";
    var t1 := TopicTitles(d1)[3];
    assert t1 == p + d1 + " Implementation";
    assert |d1| == |d2|;
    assert d1 == t1[|p|..|p| + |d1|];
  }

  /** The topic generator's state; each started timer remembers the domain it was started with. */
  class TopicGenerator {
    var domain: string
    var results: seq<string>
    var loading: bool
    /** Domains of the timers started and not yet fired, oldest first. */
    var pending: seq<string>

    constructor()
      ensures domain == "" && results == [] && !loading && pending == []
    {
      domain := "";
      results := [];
      loading := false;
      pending := [];
    }

    /** Typing into the domain box. */
    method SetDomain(text: string)
      modifies this
      ensures domain == text
      ensures results == old(results) && loading == old(loading) && pending == old(pending)
    {
      domain := text;
    }

    /**
     * `handleGenerate`: with an empty domain nothing happens; otherwise the
     * generator starts loading and a timer is started for the current domain.
     * A domain of spaces is not empty and is accepted. The button is
     * disabled while loading, so a click never finds a timer pending.
     */
    method Generate()
      requires !loading
      modifies this
      ensures domain == old(domain)
      ensures old(domain) == "" ==> results == old(results) && loading == old(loading) && pending == old(pending)
      ensures old(domain) != "" ==> loading && pending == old(pending) + [domain] && results == old(results)
    {
      if domain == "" {
        return;
      }
      loading := true;
      pending := pending + [domain];
    }

    /** The oldest timer fires: the results become that domain's four titles and loading ends. */
    method TimerFires()
      requires |pending| > 0
      modifies this
      ensures results == TopicTitles(old(pending)[0]) && !loading && pending == old(pending)[1..]
      ensures domain == old(domain)
    {
      results := TopicTitles(pending[0]);
      loading := false;
      pending := pending[1..];
    }
  }

  /**
   * From an idle generator, a click on "Generate" followed by its timer leaves
   * exactly four titles, each naming the domain that was typed.
   */
  method GenerateAndWait(g: TopicGenerator)
    requires g.pending == [] && !g.loading && g.domain != ""
    modifies g
    ensures g.domain == old(g.domain)
    ensures |g.results| == 4 && g.results == TopicTitles(old(g.domain))
    ensures forall i | 0 <= i < 4 :: Text.Contains(g.results[i], old(g.domain))
    ensures !g.loading && g.pending == []
  {
    g.Generate();
    g.TimerFires();
  }
}
