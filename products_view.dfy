/**
 * The products page: its own richer catalogue with category buttons and a
 * detail overlay, and the product assistant chat.
 */
module Showcase {
  import opened Wrappers
  import Seqs
  import Text
  import Products
  import Chat

  /**
   * A product of the products page. The tag line, description, feature and
   * specification lists and colour gradient are display text only.
   */
  datatype ShowcaseProduct = ShowcaseProduct(id: string, name: string, category: string, price: string)

  const SHOWCASE: seq<ShowcaseProduct> := [
    ShowcaseProduct("w-chat", "WiseCrew Chatbot", "AI & NLP", "$49/mo"),
    ShowcaseProduct("w-hrms", "WiseCrew HRMS", "Enterprise", "$199/mo"),
    ShowcaseProduct("w-ems", "WiseCrew School", "Education", "Custom"),
    ShowcaseProduct("w-crm", "WiseCrew Hub", "Productivity", "$29/user/mo"),
    ShowcaseProduct("w-cms", "WiseCrew CMS", "DevTools", "$99/mo"),
    ShowcaseProduct("w-mail", "WiseCrew Mail", "Communication", "$5/user/mo"),
    ShowcaseProduct("w-sheets", "WiseCrew Sheets", "Productivity", "$12/mo"),
    ShowcaseProduct("w-chat-team", "WiseCrew Team Chat", "Communication", "$8/user/mo"),
    ShowcaseProduct("w-intern", "WiseCrew Internships", "HR", "Free for Startups"),
    ShowcaseProduct("w-lms", "WiseCrew E-Learning", "Education", "$150/mo"),
    ShowcaseProduct("w-payroll", "WiseCrew Payroll", "Finance", "$35/contractor"),
    ShowcaseProduct("w-suite", "WiseCrew Enterprise", "Enterprise", "Contact Sales")
  ]

  function ShowcaseCategory(p: ShowcaseProduct): string {
    p.category
  }

  /** No product of the products page is filed under the reserved name "All". */
  lemma NoShowcaseProductInAll()
    ensures forall i | 0 <= i < |SHOWCASE| :: ShowcaseCategory(SHOWCASE[i]) != "All"
  {
  }

  /**
   * On the products page every product's category has exactly one button,
   * although several categories are shared, and that button lists the product.
   */
  lemma EachShowcaseProductHasOneButton(p: ShowcaseProduct)
    requires p in SHOWCASE
    ensures exists i ::
      1 <= i < |Products.ButtonsFor(SHOWCASE, ShowcaseCategory)| && Products.ButtonsFor(SHOWCASE, ShowcaseCategory)[i] == p.category
    ensures forall i, j | 0 <= i < |Products.ButtonsFor(SHOWCASE, ShowcaseCategory)|
      && 0 <= j < |Products.ButtonsFor(SHOWCASE, ShowcaseCategory)|
      && Products.ButtonsFor(SHOWCASE, ShowcaseCategory)[i] == p.category
      && Products.ButtonsFor(SHOWCASE, ShowcaseCategory)[j] == p.category :: i == j
    ensures p in Products.ByCategory(p.category, SHOWCASE, ShowcaseCategory)
  {
    NoShowcaseProductInAll();
    Products.EachItemHasOneButton(SHOWCASE, ShowcaseCategory, p);
  }

  /** The page's state: the product whose details are open, and the selected category. */
  class ProductsPage {
    var selectedProduct: Option<ShowcaseProduct>
    var activeCategory: string

    constructor()
      ensures selectedProduct == None && activeCategory == "All"
    {
      selectedProduct := None;
      activeCategory := "All";
    }

    /** A category button was pressed; an open detail overlay stays open. */
    method SetCategory(category: string)
      modifies this
      ensures activeCategory == category && selectedProduct == old(selectedProduct)
    {
      activeCategory := category;
    }

    /** A product card was pressed: its detail overlay opens. */
    method Select(p: ShowcaseProduct)
      modifies this
      ensures selectedProduct == Some(p) && activeCategory == old(activeCategory)
    {
      selectedProduct := Some(p);
    }

    /** The overlay's backdrop or close button. */
    method CloseDetail()
      modifies this
      ensures selectedProduct == None && activeCategory == old(activeCategory)
    {
      selectedProduct := None;
    }

    /** The cards on screen. */
    function Shown(): seq<ShowcaseProduct>
      reads this
    {
      Products.ByCategory(activeCategory, SHOWCASE, ShowcaseCategory)
    }
  }

  const ASSISTANT_GREETING: string :=
    "Hello! I'm WiseBot. I can help you find the right software solution for your needs. Are you looking for HR tools, Education software, or AI solutions?"

  const HR_KEYWORDS: seq<string> := ["hr", "payroll", "employee"]
  const SCHOOL_KEYWORDS: seq<string> := ["school", "education", "student"]
  const AI_KEYWORDS: seq<string> := ["chat", "ai"]

  const HR_REPLY: string :=
    "For workforce management, I highly recommend WISECREW HRMS combined with WISECREW Payroll. They offer seamless integration for employee data and salary processing."
  const SCHOOL_REPLY: string :=
    "WISECREW School Management System (EMS) is perfect for institutions. For online learning, check out WISECREW E-Learning Platform."
  const AI_REPLY: string :=
    "Our flagship WISECREW Chatbot uses GPT-4 for advanced conversational capabilities. For internal team comms, WISECREW Chat is the best choice."
  const ASSISTANT_DEFAULT: string := "I can help with that. Could you clarify your requirements?"

  const ASSISTANT_RULES: seq<Chat.Rule> := [
    Chat.Rule(HR_KEYWORDS, HR_REPLY),
    Chat.Rule(SCHOOL_KEYWORDS, SCHOOL_REPLY),
    Chat.Rule(AI_KEYWORDS, AI_REPLY)
  ]

  /** The product assistant's reply to a message: always one of its four canned answers. */
  function AssistantReply(text: string): (r: string)
    ensures r in {HR_REPLY, SCHOOL_REPLY, AI_REPLY, ASSISTANT_DEFAULT}
  {
    var r := Chat.Reply(ASSISTANT_RULES, ASSISTANT_DEFAULT, text);
    if r == ASSISTANT_DEFAULT then r
    else
      var k :| 0 <= k < |ASSISTANT_RULES| && r == ASSISTANT_RULES[k].reply;
      assert k == 0 || k == 1 || k == 2;
      r
  }

  /**
   * The assistant's routing on the lower-cased message: workforce keywords
   * first, then education, then chat and AI, then the default reply.
   */
  lemma AssistantRouting(text: string)
    ensures Chat.Mentions(text, HR_KEYWORDS) ==> AssistantReply(text) == HR_REPLY
    ensures !Chat.Mentions(text, HR_KEYWORDS) && Chat.Mentions(text, SCHOOL_KEYWORDS) ==>
      AssistantReply(text) == SCHOOL_REPLY
    ensures !Chat.Mentions(text, HR_KEYWORDS) && !Chat.Mentions(text, SCHOOL_KEYWORDS) && Chat.Mentions(text, AI_KEYWORDS) ==>
      AssistantReply(text) == AI_REPLY
    ensures !Chat.Mentions(text, HR_KEYWORDS) && !Chat.Mentions(text, SCHOOL_KEYWORDS) && !Chat.Mentions(text, AI_KEYWORDS) ==>
      AssistantReply(text) == ASSISTANT_DEFAULT
  {
    var lower := Text.ToLower(text);
    var rules := ASSISTANT_RULES;
    if Chat.MentionsAny(lower, HR_KEYWORDS) {
      Chat.FirstMatchWins(rules, lower, ASSISTANT_DEFAULT, 0);
    } else if Chat.MentionsAny(lower, SCHOOL_KEYWORDS) {
      Chat.FirstMatchWins(rules, lower, ASSISTANT_DEFAULT, 1);
    } else if Chat.MentionsAny(lower, AI_KEYWORDS) {
      Chat.FirstMatchWins(rules, lower, ASSISTANT_DEFAULT, 2);
    } else {
      Chat.NoMatchFallsBack(rules, lower, ASSISTANT_DEFAULT);
    }
  }

  /** Keywords match anywhere inside words: "Three" contains "hr" and gets the workforce reply. */
  lemma SubstringMatch()
    ensures AssistantReply("Three") == HR_REPLY
  {
    var lower := Text.ToLower("Three");
    assert lower == "three";
    assert Text.OccursAt(lower, HR_KEYWORDS[0], 1);
    AssistantRouting("Three");
  }

  /** The assistant's send: the user's line, then exactly one reply chosen by the keyword rules. */
  method AssistantSend(chat: Chat.ChatWindow, userId: string, botId: string)
    modifies chat
    ensures Text.Trim(old(chat.input)) == "" ==>
      chat.messages == old(chat.messages) && chat.input == old(chat.input) && chat.loading == old(chat.loading)
    ensures Text.Trim(old(chat.input)) != "" ==>
      && chat.messages == old(chat.messages) + [Chat.Message(userId, Chat.User, old(chat.input)),
                                               Chat.Message(botId, Chat.Bot, AssistantReply(old(chat.input)))]
      && chat.input == "" && !chat.loading
    ensures chat.isOpen == old(chat.isOpen)
  {
    chat.Send(userId, botId, AssistantReply);
  }
}
