/** The SoilBot chat page (frontend/src/app/chat/page.tsx): a keyword
    matcher that picks a canned reply, and the message log the page keeps. */
module SoilBot {
  import opened Wrappers
  import opened JsText

  // The `botResponses` table and the two inline replies.
  const SandyReply := "Sandy soil drains quickly but doesn't hold nutrients well. Add compost or organic matter to help it retain water and nutrients! 🏖️➡️🌱"
  const PhReply := "pH measures how acidic or basic your soil is! Most plants like soil between 6.0-7.0 pH. It's like the soil's mood - not too sour, not too bitter! 😊"
  const WormsReply := "Worms are soil superheroes! 🪱 They eat organic matter and create nutrient-rich castings (worm poop!) that plants love. They also create tunnels that help air and water reach plant roots!"
  const WaterReply := "Most plants need water when the top inch of soil feels dry. Stick your finger into the soil - if it's dry, it's time to water! 💧"
  const CompostReply := "Compost is like a superfood smoothie for your soil! 🥤 It's made from decomposed organic materials like food scraps and leaves. It adds nutrients and helps soil hold water better!"
  const DefaultReply := "That&apos;s a great question! 🤔 Soil health involves many factors like nutrients, pH, moisture, and beneficial organisms. Would you like to know more about any specific aspect?"
  const GreetingReply := "Hello there! 👋 I'm excited to help you learn about soil! What's growing in your garden?"
  const ThanksReply := "You're so welcome! 😊 Keep asking questions - learning about soil is fun! 🌱"

  /** The first message of a fresh chat. */
  const WelcomeText := "Hello! I'm SoilBot! 🌱 I'm here to help you learn about soil health. What would you like to know?"

  /** The suggestion buttons under the log. */
  const QuickReplies := [
    "How do I improve sandy soil?",
    "What is pH in soil?",
    "Why are worms good for soil?",
    "How often should I water my plants?",
    "What is compost?"
  ]

  /** Every text the bot can answer with. */
  const Replies := {SandyReply, PhReply, WormsReply, WaterReply, CompostReply, GreetingReply, ThanksReply, DefaultReply}

  /** `getBotResponse`: lower-case the question, then pick the reply. */
  function GetBotResponse(userMessage: string): (r: string)
    ensures r in Replies
  {
    SelectReply(ToLower(userMessage))
  }

  /** The if-chain of `getBotResponse` on the lower-cased question: the
      keywords are tested in a fixed order and the first that occurs as a
      substring decides the reply. */
  function SelectReply(message: string): (r: string)
    ensures r in Replies
  {
    if Contains(message, "sandy") || Contains(message, "sand") then SandyReply
    else if Contains(message, "ph") then PhReply
    else if Contains(message, "worm") then WormsReply
    else if Contains(message, "water") || Contains(message, "watering") then WaterReply
    else if Contains(message, "compost") then CompostReply
    else if Contains(message, "hello") || Contains(message, "hi") then GreetingReply
    else if Contains(message, "thank") then ThanksReply
    else DefaultReply
  }

  /** An independent statement of the selector: a priority-ordered table of
      keyword groups, each with its reply. */
  datatype Rule = Rule(keywords: seq<string>, reply: string)

  const Rules := [
    Rule(["sandy", "sand"], SandyReply),
    Rule(["ph"], PhReply),
    Rule(["worm"], WormsReply),
    Rule(["water", "watering"], WaterReply),
    Rule(["compost"], CompostReply),
    Rule(["hello", "hi"], GreetingReply),
    Rule(["thank"], ThanksReply)
  ]

  /** Every keyword of the table. */
  const Keywords := ["sandy", "sand", "ph", "worm", "water", "watering", "compost", "hello", "hi", "thank"]

  /** The keyword list and the reply set are the table's, in order: the rules'
      keywords one after another, and the rules' replies plus the default. */
  lemma KeywordsAndRepliesFromTable()
    ensures Keywords == Rules[0].keywords + Rules[1].keywords + Rules[2].keywords +
      Rules[3].keywords + Rules[4].keywords + Rules[5].keywords + Rules[6].keywords
    ensures Replies == {Rules[0].reply, Rules[1].reply, Rules[2].reply, Rules[3].reply,
      Rules[4].reply, Rules[5].reply, Rules[6].reply, DefaultReply}
  {
  }

  predicate RuleMatches(message: string, rule: Rule) {
    exists k :: k in rule.keywords && Contains(message, k)
  }

  /** The index of the first rule that matches, if any. */
  function FirstMatch(message: string, rules: seq<Rule>): (r: Option<nat>)
    ensures r.Some? ==> r.value < |rules| && RuleMatches(message, rules[r.value])
    ensures r.Some? ==> forall j :: 0 <= j < r.value ==> !RuleMatches(message, rules[j])
    ensures r.None? ==> forall j :: 0 <= j < |rules| ==> !RuleMatches(message, rules[j])
  {
    if rules == [] then None
    else if RuleMatches(message, rules[0]) then Some(0)
    else match FirstMatch(message, rules[1..])
      case None => None
      case Some(i) => Some(i + 1)
  }

  /** The reply the table gives for an already lower-cased message. */
  function TableReply(message: string): string {
    match FirstMatch(message, Rules)
    case Some(i) => Rules[i].reply
    case None => DefaultReply
  }

  lemma RuleOfOneKeyword(message: string, keyword: string, reply: string)
    ensures RuleMatches(message, Rule([keyword], reply)) <==> Contains(message, keyword)
  {
    if Contains(message, keyword) {
      assert keyword in [keyword];
    }
  }

  lemma RuleOfTwoKeywords(message: string, k1: string, k2: string, reply: string)
    ensures RuleMatches(message, Rule([k1, k2], reply)) <==> Contains(message, k1) || Contains(message, k2)
  {
    if Contains(message, k1) {
      assert k1 in [k1, k2];
    }
    if Contains(message, k2) {
      assert k2 in [k1, k2];
    }
  }

  /** The rule at `j` is the first that matches. */
  lemma FirstMatchAt(message: string, rules: seq<Rule>, j: nat)
    requires j < |rules| && RuleMatches(message, rules[j])
    requires forall i :: 0 <= i < j ==> !RuleMatches(message, rules[i])
    ensures FirstMatch(message, rules) == Some(j)
  {
  }

  /** `getBotResponse` is the first-match-wins reading of the table, applied to
      the lower-cased question. */
  lemma GetBotResponseFollowsTable(userMessage: string)
    ensures GetBotResponse(userMessage) == TableReply(ToLower(userMessage))
  {
    SelectReplyFollowsTable(ToLower(userMessage));
  }

  /** Which rules of the table match, keyword by keyword. */
  lemma RulesMatchKeywords(m: string)
    ensures RuleMatches(m, Rules[0]) <==> Contains(m, "sandy") || Contains(m, "sand")
    ensures RuleMatches(m, Rules[1]) <==> Contains(m, "ph")
    ensures RuleMatches(m, Rules[2]) <==> Contains(m, "worm")
    ensures RuleMatches(m, Rules[3]) <==> Contains(m, "water") || Contains(m, "watering")
    ensures RuleMatches(m, Rules[4]) <==> Contains(m, "compost")
    ensures RuleMatches(m, Rules[5]) <==> Contains(m, "hello") || Contains(m, "hi")
    ensures RuleMatches(m, Rules[6]) <==> Contains(m, "thank")
  {
    RuleOfTwoKeywords(m, "sandy", "sand", SandyReply);
    RuleOfOneKeyword(m, "ph", PhReply);
    RuleOfOneKeyword(m, "worm", WormsReply);
    RuleOfTwoKeywords(m, "water", "watering", WaterReply);
    RuleOfOneKeyword(m, "compost", CompostReply);
    RuleOfTwoKeywords(m, "hello", "hi", GreetingReply);
    RuleOfOneKeyword(m, "thank", ThanksReply);
  }

  /** The table's reply when rule `j` is the first whose keywords occur. */
  lemma TableReplyAt(m: string, j: nat)
    requires j < |Rules| && RuleMatches(m, Rules[j])
    requires forall i :: 0 <= i < j ==> !RuleMatches(m, Rules[i])
    ensures TableReply(m) == Rules[j].reply
  {
    FirstMatchAt(m, Rules, j);
  }

  lemma TableGivesSandy(m: string)
    requires Contains(m, "sandy") || Contains(m, "sand")
    ensures TableReply(m) == SandyReply
  {
    RulesMatchKeywords(m);
    TableReplyAt(m, 0);
  }

  lemma TableGivesPh(m: string)
    requires !(Contains(m, "sandy") || Contains(m, "sand"))
    requires Contains(m, "ph")
    ensures TableReply(m) == PhReply
  {
    RulesMatchKeywords(m);
    TableReplyAt(m, 1);
  }

  lemma TableGivesWorms(m: string)
    requires !(Contains(m, "sandy") || Contains(m, "sand"))
    requires !(Contains(m, "ph"))
    requires Contains(m, "worm")
    ensures TableReply(m) == WormsReply
  {
    RulesMatchKeywords(m);
    TableReplyAt(m, 2);
  }

  lemma TableGivesWater(m: string)
    requires !(Contains(m, "sandy") || Contains(m, "sand"))
    requires !(Contains(m, "ph"))
    requires !(Contains(m, "worm"))
    requires Contains(m, "water") || Contains(m, "watering")
    ensures TableReply(m) == WaterReply
  {
    RulesMatchKeywords(m);
    TableReplyAt(m, 3);
  }

  lemma TableGivesCompost(m: string)
    requires !(Contains(m, "sandy") || Contains(m, "sand"))
    requires !(Contains(m, "ph"))
    requires !(Contains(m, "worm"))
    requires !(Contains(m, "water") || Contains(m, "watering"))
    requires Contains(m, "compost")
    ensures TableReply(m) == CompostReply
  {
    RulesMatchKeywords(m);
    TableReplyAt(m, 4);
  }

  lemma TableGivesGreeting(m: string)
    requires !(Contains(m, "sandy") || Contains(m, "sand"))
    requires !(Contains(m, "ph"))
    requires !(Contains(m, "worm"))
    requires !(Contains(m, "water") || Contains(m, "watering"))
    requires !(Contains(m, "compost"))
    requires Contains(m, "hello") || Contains(m, "hi")
    ensures TableReply(m) == GreetingReply
  {
    RulesMatchKeywords(m);
    TableReplyAt(m, 5);
  }

  lemma TableGivesThanks(m: string)
    requires !(Contains(m, "sandy") || Contains(m, "sand"))
    requires !(Contains(m, "ph"))
    requires !(Contains(m, "worm"))
    requires !(Contains(m, "water") || Contains(m, "watering"))
    requires !(Contains(m, "compost"))
    requires !(Contains(m, "hello") || Contains(m, "hi"))
    requires Contains(m, "thank")
    ensures TableReply(m) == ThanksReply
  {
    RulesMatchKeywords(m);
    TableReplyAt(m, 6);
  }

  lemma TableGivesDefault(m: string)
    requires !(Contains(m, "sandy") || Contains(m, "sand"))
    requires !(Contains(m, "ph"))
    requires !(Contains(m, "worm"))
    requires !(Contains(m, "water") || Contains(m, "watering"))
    requires !(Contains(m, "compost"))
    requires !(Contains(m, "hello") || Contains(m, "hi"))
    requires !(Contains(m, "thank"))
    ensures TableReply(m) == DefaultReply
  {
    RulesMatchKeywords(m);
  }

  /** The if-chain agrees with the table: each branch of the chain is the
      first rule of the table that matches. */
  lemma SelectReplyFollowsTable(m: string)
    ensures SelectReply(m) == TableReply(m)
  {
    if Contains(m, "sandy") || Contains(m, "sand") {
      TableGivesSandy(m);
    } else if Contains(m, "ph") {
      TableGivesPh(m);
    } else if Contains(m, "worm") {
      TableGivesWorms(m);
    } else if Contains(m, "water") || Contains(m, "watering") {
      TableGivesWater(m);
    } else if Contains(m, "compost") {
      TableGivesCompost(m);
    } else if Contains(m, "hello") || Contains(m, "hi") {
      TableGivesGreeting(m);
    } else if Contains(m, "thank") {
      TableGivesThanks(m);
    } else {
      TableGivesDefault(m);
    }
  }

  /** Case does not matter: the question and its lower-cased form get the
      same reply. */
  lemma ReplyIgnoresCase(userMessage: string)
    ensures GetBotResponse(ToLower(userMessage)) == GetBotResponse(userMessage)
  {
    ToLowerIdempotent(userMessage);
  }

  /** The default reply is given exactly when no keyword occurs in the
      lower-cased question. */
  lemma DefaultIffNoKeyword(userMessage: string)
    ensures GetBotResponse(userMessage) == DefaultReply <==>
      forall k :: k in Keywords ==> !Contains(ToLower(userMessage), k)
  {
    var m := ToLower(userMessage);
    // the replies have different lengths
    assert |DefaultReply| == 176;
    assert |SandyReply| == 133 && |PhReply| == 147 && |WormsReply| == 186 && |WaterReply| == 128;
    assert |CompostReply| == 178 && |GreetingReply| == 87 && |ThanksReply| == 74;
    if forall k :: k in Keywords ==> !Contains(m, k) {
      assert "sandy" in Keywords && "sand" in Keywords && "ph" in Keywords && "worm" in Keywords;
      assert "water" in Keywords && "watering" in Keywords && "compost" in Keywords;
      assert "hello" in Keywords && "hi" in Keywords && "thank" in Keywords;
    }
  }

  /** "sand" outranks "ph": a question mentioning both gets the sandy reply. */
  lemma SandOutranksPh(userMessage: string)
    requires Contains(ToLower(userMessage), "sand")
    ensures GetBotResponse(userMessage) == SandyReply
  {
  }

  /** Matching is by substring, not by word: any question containing "ph"
      (say, in "photo") and no "sand" gets the pH reply. */
  lemma PhMatchesInsideWords(userMessage: string)
    requires Contains(ToLower(userMessage), "ph") && !Contains(ToLower(userMessage), "sand")
    ensures GetBotResponse(userMessage) == PhReply
  {
    if Contains(ToLower(userMessage), "sandy") {
      ContainsPrefixOf(ToLower(userMessage), "sandy", "sand");
    }
  }

  lemma PhotoLowered()
    ensures ToLower("Photo of my garden") == "photo of my garden"
  {
  }

  /** Matching is by substring: "Photo of my garden" is answered about pH. */
  lemma PhotoGetsPhReply()
    ensures GetBotResponse("Photo of my garden") == PhReply
  {
    PhotoLowered();
    assert OccursAt("photo of my garden", "ph", 0);
    MissingCharNotContained("photo of my garden", "sand", 's');
    PhMatchesInsideWords("Photo of my garden");
  }

  /** The keywords found in "which is best?": only "hi", inside "which". */
  lemma WhichIsBestKeywords()
    ensures !Contains("which is best?", "sandy") && !Contains("which is best?", "sand")
    ensures !Contains("which is best?", "ph") && !Contains("which is best?", "worm")
    ensures !Contains("which is best?", "water") && !Contains("which is best?", "watering")
    ensures !Contains("which is best?", "compost") && !Contains("which is best?", "hello")
    ensures !Contains("which is best?", "thank")
    ensures Contains("which is best?", "hi")
  {
    var m := "which is best?";
    MissingCharNotContained(m, "sandy", 'a');
    MissingCharNotContained(m, "sand", 'a');
    MissingCharNotContained(m, "ph", 'p');
    MissingCharNotContained(m, "worm", 'o');
    MissingCharNotContained(m, "water", 'a');
    MissingCharNotContained(m, "watering", 'a');
    MissingCharNotContained(m, "compost", 'o');
    MissingCharNotContained(m, "hello", 'l');
    MissingCharNotContained(m, "thank", 'k');
    assert OccursAt(m, "hi", 1);
  }

  lemma WhichLowered()
    ensures ToLower("Which is best?") == "which is best?"
  {
  }

  /** Matching is by substring: "Which is best?" is greeted, because "which"
      contains "hi". */
  lemma WhichGetsGreeting()
    ensures GetBotResponse("Which is best?") == GreetingReply
  {
    WhichLowered();
    WhichIsBestKeywords();
  }

  /** The first suggestion button, lower-cased. */
  lemma SandyQuestionLowered()
    ensures ToLower(QuickReplies[0]) == "how do i improve sandy soil?"
  {
  }

  /** The first suggestion button is answered about sandy soil. */
  lemma SandyQuickReplyOnTopic()
    ensures GetBotResponse(QuickReplies[0]) == SandyReply
  {
    SandyQuestionLowered();
    assert OccursAt("how do i improve sandy soil?", "sand", 17);
    SandOutranksPh(QuickReplies[0]);
  }

  /** The second suggestion button, lower-cased. */
  lemma PhQuestionLowered()
    ensures ToLower(QuickReplies[1]) == "what is ph in soil?"
  {
  }

  /** The second suggestion button is answered about pH. */
  lemma PhQuickReplyOnTopic()
    ensures GetBotResponse(QuickReplies[1]) == PhReply
  {
    var m := ToLower(QuickReplies[1]);
    PhQuestionLowered();
    assert OccursAt(m, "ph", 8);
    MissingCharNotContained(m, "sand", 'd');
    PhMatchesInsideWords(QuickReplies[1]);
  }

  /** "why are worms good for soil?" contains "worm" and neither "sand" nor "ph". */
  lemma WormsQuestionKeywords()
    ensures Contains("why are worms good for soil?", "worm")
    ensures !Contains("why are worms good for soil?", "sandy")
    ensures !Contains("why are worms good for soil?", "sand")
    ensures !Contains("why are worms good for soil?", "ph")
  {
    var m := "why are worms good for soil?";
    assert OccursAt(m, "worm", 8);
    MissingCharNotContained(m, "sandy", 'n');
    MissingCharNotContained(m, "sand", 'n');
    MissingCharNotContained(m, "ph", 'p');
  }

  /** The third suggestion button, lower-cased. */
  lemma WormsQuestionLowered()
    ensures ToLower(QuickReplies[2]) == "why are worms good for soil?"
  {
  }

  /** The third suggestion button is answered about worms. */
  lemma WormsQuickReplyOnTopic()
    ensures GetBotResponse(QuickReplies[2]) == WormsReply
  {
    WormsQuestionLowered();
    WormsQuestionKeywords();
  }

  /** One entry of the chat log (the timestamp is not modelled). */
  datatype Message = Message(id: int, text: string, isBot: bool)

  /** What the deferred half of a send needs: the id and text of the bot
      message it will append, both fixed when the send happened. */
  datatype PendingReply = PendingReply(id: int, text: string)

  /** The state of the chat page: the log, the text box and the typing
      indicator. */
  class ChatLog {
    var messages: seq<Message>
    var inputText: string
    var isTyping: bool

    /** A fresh page: one welcome message from the bot, empty input. */
    constructor ()
      ensures messages == [Message(1, WelcomeText, true)]
      ensures inputText == "" && !isTyping
    {
      messages := [Message(1, WelcomeText, true)];
      inputText := "";
      isTyping := false;
    }

    /** Typing in the text box. */
    method SetInputText(text: string)
      modifies this
      ensures inputText == text
      ensures messages == old(messages) && isTyping == old(isTyping)
    {
      inputText := text;
    }

    /** `handleQuickReply`: a suggestion button fills the text box. */
    method QuickReply(i: nat)
      requires i < |QuickReplies|
      modifies this
      ensures inputText == QuickReplies[i]
      ensures messages == old(messages) && isTyping == old(isTyping)
    {
      SetInputText(QuickReplies[i]);
    }

    /** The first half of `handleSendMessage`. Blank input changes nothing;
        otherwise the user's text is appended with id |messages| + 1, the box
        is cleared and the typing indicator set. The returned reply is what
        the deferred half will append. */
    method Send() returns (pending: Option<PendingReply>)
      modifies this
      ensures IsBlank(old(inputText)) ==>
        pending == None && messages == old(messages) &&
        inputText == old(inputText) && isTyping == old(isTyping)
      ensures !IsBlank(old(inputText)) ==>
        messages == old(messages) + [Message(|old(messages)| + 1, old(inputText), false)] &&
        inputText == "" && isTyping &&
        pending == Some(PendingReply(|old(messages)| + 2, GetBotResponse(old(inputText))))
    {
      var blank := TrimsToEmpty(inputText);
      if blank {
        return None;
      }
      var sent := inputText;
      var count := |messages|;
      messages := messages + [Message(count + 1, sent, false)];
      inputText := "";
      isTyping := true;
      pending := Some(PendingReply(count + 2, GetBotResponse(sent)));
    }

    /** The deferred half of `handleSendMessage`: append the bot message and
        clear the typing indicator. */
    method DeliverBot(pending: PendingReply)
      modifies this
      ensures messages == old(messages) + [Message(pending.id, pending.text, true)]
      ensures !isTyping && inputText == old(inputText)
    {
      messages := messages + [Message(pending.id, pending.text, true)];
      isTyping := false;
    }

    /** `handleKeyPress`: Enter sends, whether or not a reply is pending. */
    method PressKey(key: string) returns (pending: Option<PendingReply>)
      modifies this
      ensures key != "Enter" ==>
        pending == None && messages == old(messages) &&
        inputText == old(inputText) && isTyping == old(isTyping)
      ensures key == "Enter" && !IsBlank(old(inputText)) ==>
        messages == old(messages) + [Message(|old(messages)| + 1, old(inputText), false)] &&
        inputText == "" && isTyping &&
        pending == Some(PendingReply(|old(messages)| + 2, GetBotResponse(old(inputText))))
      ensures key == "Enter" && IsBlank(old(inputText)) ==>
        pending == None && messages == old(messages) &&
        inputText == old(inputText) && isTyping == old(isTyping)
    {
      pending := None;
      if key == "Enter" {
        pending := Send();
      }
    }

    /** The send button: disabled while the input is blank or a reply is
        pending, otherwise `handleSendMessage`. */
    method ClickSend() returns (pending: Option<PendingReply>)
      modifies this
      ensures (IsBlank(old(inputText)) || old(isTyping)) ==>
        pending == None && messages == old(messages) &&
        inputText == old(inputText) && isTyping == old(isTyping)
      ensures !IsBlank(old(inputText)) && !old(isTyping) ==>
        messages == old(messages) + [Message(|old(messages)| + 1, old(inputText), false)] &&
        inputText == "" && isTyping &&
        pending == Some(PendingReply(|old(messages)| + 2, GetBotResponse(old(inputText))))
    {
      pending := None;
      var blank := TrimsToEmpty(inputText);
      if !blank && !isTyping {
        pending := Send();
      }
    }
  }

  /** Message ids are not unique: pressing Enter a second time while the
      first reply is still pending gives the second user message and the
      first bot message the same id, 3. The send button, by contrast, is
      refused while a reply is pending. */
  method EnterWhileTypingDuplicatesIds() returns (ids: seq<int>)
    ensures ids == [1, 2, 3, 3, 4]
  {
    assert !IsBlank("hi") && !IsBlank("thanks") by {
      assert "hi"[0] == 'h' && "thanks"[0] == 't';
    }
    var chat := new ChatLog();
    chat.SetInputText("hi");
    var first := chat.PressKey("Enter");
    chat.SetInputText("thanks");
    var refused := chat.ClickSend();
    assert refused == None;
    var second := chat.PressKey("Enter");
    assert first.Some? && second.Some?;
    chat.DeliverBot(first.value);
    chat.DeliverBot(second.value);
    ids := [chat.messages[0].id, chat.messages[1].id, chat.messages[2].id, chat.messages[3].id, chat.messages[4].id];
  }
}
