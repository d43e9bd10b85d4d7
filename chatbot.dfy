/** The keyword chatbot of `src/components/Chatbot.tsx`: the ordered,
    case-insensitive keyword classifier `getResponse`, and the widget state
    (message log, input box, replies scheduled but not yet delivered)
    updated by `sendMessage`, the delayed reply and the greeting reset. */
module Chatbot {
  import opened Text

  /** The five canned replies `getResponse` can pick. */
  datatype Reply = ServicesReply | LaboratoryReply | TrainingReply | ContactReply | DefaultReply

  /** The translation key of each reply. */
  function ReplyKey(r: Reply): string {
    match r
    case ServicesReply => "chatbot.services"
    case LaboratoryReply => "chatbot.laboratory"
    case TrainingReply => "chatbot.training"
    case ContactReply => "chatbot.contact"
    case DefaultReply => "chatbot.default"
  }

  const GreetingKey := "chatbot.greeting"

  /** Some word of `words` occurs in `text`. */
  predicate MentionsAny(text: string, words: seq<string>) {
    exists k :: 0 <= k < |words| && Contains(text, words[k])
  }

  const ServiceWords: seq<string> := ["service", "offre"]
  const LaboratoryWords: seq<string> := ["laboratoire", "laboratory", "analyse"]
  const TrainingWords: seq<string> := ["formation", "training", "cours"]
  const ContactWords: seq<string> := ["contact", "adresse", "téléphone"]

  /** `getResponse` without the translation: lower-case the message, then try
      the four keyword groups in order. */
  function Classify(message: string): Reply {
    var lower := Lower(message);
    if Contains(lower, "service") || Contains(lower, "offre") then ServicesReply
    else if Contains(lower, "laboratoire") || Contains(lower, "laboratory") || Contains(lower, "analyse") then LaboratoryReply
    else if Contains(lower, "formation") || Contains(lower, "training") || Contains(lower, "cours") then TrainingReply
    else if Contains(lower, "contact") || Contains(lower, "adresse") || Contains(lower, "téléphone") then ContactReply
    else DefaultReply
  }

  /** `getResponse(message)`: the text of the chosen reply, translated by
      `translate` (the language context's `t`, given the language) into `language`. */
  function GetResponse(translate: (string, string) -> string, language: string, message: string): string {
    translate(language, ReplyKey(Classify(message)))
  }

  /** One keyword rule: trigger words and the reply they select. */
  datatype KeywordRule = KeywordRule(words: seq<string>, reply: Reply)

  /** The rules in priority order. */
  const KeywordRules: seq<KeywordRule> := [
    KeywordRule(ServiceWords, ServicesReply),
    KeywordRule(LaboratoryWords, LaboratoryReply),
    KeywordRule(TrainingWords, TrainingReply),
    KeywordRule(ContactWords, ContactReply)
  ]

  /** The reply of the first rule with a word in `text`, the default when none has. */
  function FirstMatch(rules: seq<KeywordRule>, text: string): Reply {
    if rules == [] then DefaultReply
    else if MentionsAny(text, rules[0].words) then rules[0].reply
    else FirstMatch(rules[1..], text)
  }

  /** The keyword groups as word lists say the same as the source's
      `includes` disjunctions. */
  lemma MentionsGroups(lower: string)
    ensures MentionsAny(lower, ServiceWords) <==> Contains(lower, "service") || Contains(lower, "offre")
    ensures MentionsAny(lower, LaboratoryWords)
        <==> Contains(lower, "laboratoire") || Contains(lower, "laboratory") || Contains(lower, "analyse")
    ensures MentionsAny(lower, TrainingWords)
        <==> Contains(lower, "formation") || Contains(lower, "training") || Contains(lower, "cours")
    ensures MentionsAny(lower, ContactWords)
        <==> Contains(lower, "contact") || Contains(lower, "adresse") || Contains(lower, "téléphone")
  {
    assert ServiceWords[0] == "service" && ServiceWords[1] == "offre";
    assert LaboratoryWords[0] == "laboratoire" && LaboratoryWords[1] == "laboratory" && LaboratoryWords[2] == "analyse";
    assert TrainingWords[0] == "formation" && TrainingWords[1] == "training" && TrainingWords[2] == "cours";
    assert ContactWords[0] == "contact" && ContactWords[1] == "adresse" && ContactWords[2] == "téléphone";
  }

  /** The if-chain of `getResponse` is the first-match-wins evaluation of
      the ordered rule table on the lower-cased message. */
  lemma ClassifyIsFirstMatch(message: string)
    ensures Classify(message) == FirstMatch(KeywordRules, Lower(message))
  {
    var lower := Lower(message);
    MentionsGroups(lower);
    var r1 := KeywordRules[1..];
    var r2 := r1[1..];
    var r3 := r2[1..];
    assert r3[1..] == [];
    assert FirstMatch(KeywordRules, lower)
        == if MentionsAny(lower, ServiceWords) then ServicesReply else FirstMatch(r1, lower);
    assert FirstMatch(r1, lower)
        == if MentionsAny(lower, LaboratoryWords) then LaboratoryReply else FirstMatch(r2, lower);
    assert FirstMatch(r2, lower)
        == if MentionsAny(lower, TrainingWords) then TrainingReply else FirstMatch(r3, lower);
    assert FirstMatch(r3, lower)
        == if MentionsAny(lower, ContactWords) then ContactReply else FirstMatch(r3[1..], lower);
  }

  /** Matching ignores case: the message and its lower-cased form get the same reply. */
  lemma ClassifyIgnoresCase(message: string)
    ensures Classify(message) == Classify(Lower(message))
  {
    LowerIdempotent(message);
  }

  /** A service word anywhere, in any case, selects the services reply,
      whatever other keywords the message holds. */
  lemma ServiceWordsWin(message: string, word: string)
    requires word in ServiceWords
    requires Contains(message, word) || Contains(Lower(message), word)
    ensures Classify(message) == ServicesReply
  {
    if Contains(message, word) {
      ContainsLower(message, word);
      LowerFixed(word);
    }
  }

  /** Each group is chosen exactly when one of its words occurs and no word
      of an earlier group does; the default exactly when no keyword occurs. */
  lemma ClassifyPriority(message: string)
    ensures var lower := Lower(message);
      && (Classify(message) == ServicesReply <==> MentionsAny(lower, ServiceWords))
      && (Classify(message) == LaboratoryReply <==>
            !MentionsAny(lower, ServiceWords) && MentionsAny(lower, LaboratoryWords))
      && (Classify(message) == TrainingReply <==>
            !MentionsAny(lower, ServiceWords) && !MentionsAny(lower, LaboratoryWords)
            && MentionsAny(lower, TrainingWords))
      && (Classify(message) == ContactReply <==>
            !MentionsAny(lower, ServiceWords) && !MentionsAny(lower, LaboratoryWords)
            && !MentionsAny(lower, TrainingWords) && MentionsAny(lower, ContactWords))
      && (Classify(message) == DefaultReply <==>
            !MentionsAny(lower, ServiceWords) && !MentionsAny(lower, LaboratoryWords)
            && !MentionsAny(lower, TrainingWords) && !MentionsAny(lower, ContactWords))
  {
    MentionsGroups(Lower(message));
  }

  /** A message of the log. */
  datatype Message = Message(id: int, text: string, isBot: bool)

  /** A bot reply scheduled by `sendMessage`. The timer's closure captured,
      at send time, the id `messages.length + 2`, the input and the language
      of the `t` that `getResponse` uses; the reply text is computed from
      them when the timer fires. */
  datatype PendingReply = PendingReply(id: int, input: string, language: string)

  /** The greeting the log is reset to. */
  function Greeting(translate: (string, string) -> string, language: string): Message {
    Message(1, translate(language, GreetingKey), true)
  }

  /** The chat widget's state. */
  class ChatWidget {
    /** The translation lookup of the language context. */
    const translate: (string, string) -> string
    /** The current display language. */
    var language: string
    var messages: seq<Message>
    var inputMessage: string
    /** Replies whose timer has not fired yet, in firing order (all timers
        have the same 1000 ms delay). */
    var pending: seq<PendingReply>

    /** Mounting runs the reset effect once: the log is the greeting. */
    constructor (translate: (string, string) -> string, language: string)
      ensures this.translate == translate && this.language == language
      ensures messages == [Greeting(translate, language)] && inputMessage == "" && pending == []
    {
      this.translate := translate;
      this.language := language;
      messages := [Greeting(translate, language)];
      inputMessage := "";
      pending := [];
    }

    /** The input box's `onChange`. */
    method SetInput(text: string)
      modifies this`inputMessage
      ensures inputMessage == text
    {
      inputMessage := text;
    }

    /** The language context switching to `newLanguage`. The effect on `[t]`
        runs only when `t` changes, which the model takes to be exactly when
        the language differs (an assumption about the context provider): it
        then resets the log to the greeting in the new language. Scheduled
        replies are not cancelled. Choosing the current language again
        changes nothing. */
    method ChangeLanguage(newLanguage: string)
      modifies this`language, this`messages
      ensures language == newLanguage
      ensures newLanguage != old(language) ==> messages == [Greeting(translate, newLanguage)]
      ensures newLanguage == old(language) ==> messages == old(messages)
    {
      if newLanguage != language {
        language := newLanguage;
        messages := [Greeting(translate, newLanguage)];
      }
    }

    /** `sendMessage()`: ignored when the input trims to nothing (is all
        whitespace); otherwise
        appends the user message with id `n + 1`, schedules the reply with
        id `n + 2` (`n` the log length now) and clears the input. */
    method SendMessage()
      modifies this`messages, this`pending, this`inputMessage
      ensures IsBlank(old(inputMessage)) ==>
                messages == old(messages) && pending == old(pending) && inputMessage == old(inputMessage)
      ensures !IsBlank(old(inputMessage)) ==>
                && messages == old(messages) + [Message(|old(messages)| + 1, old(inputMessage), false)]
                && pending == old(pending) + [PendingReply(|old(messages)| + 2, old(inputMessage), language)]
                && inputMessage == ""
    {
      TrimEmptyIff(inputMessage);
      if Trim(inputMessage) == [] {
        return;
      }
      var n := |messages|;
      var userMessage := Message(n + 1, inputMessage, false);
      messages := messages + [userMessage];
      pending := pending + [PendingReply(n + 2, inputMessage, language)];
      inputMessage := "";
    }

    /** `handleKeyPress`: Enter sends, any other key does nothing. */
    method HandleKeyPress(key: string)
      modifies this`messages, this`pending, this`inputMessage
      ensures key != "Enter" ==>
                messages == old(messages) && pending == old(pending) && inputMessage == old(inputMessage)
      ensures key == "Enter" && !IsBlank(old(inputMessage)) ==>
                && messages == old(messages) + [Message(|old(messages)| + 1, old(inputMessage), false)]
                && pending == old(pending) + [PendingReply(|old(messages)| + 2, old(inputMessage), language)]
                && inputMessage == ""
      ensures key == "Enter" && IsBlank(old(inputMessage)) ==>
                messages == old(messages) && pending == old(pending) && inputMessage == old(inputMessage)
    {
      if key == "Enter" {
        SendMessage();
      }
    }

    /** The oldest reply timer fires: its bot message is appended to the
        log as it is now, even after a reset. */
    method DeliverReply()
      requires pending != []
      modifies this`messages, this`pending
      ensures var reply := old(pending)[0];
              messages == old(messages) + [Message(reply.id, GetResponse(translate, reply.language, reply.input), true)]
      ensures pending == old(pending)[1..]
    {
      var reply := pending[0];
      pending := pending[1..];
      messages := messages + [Message(reply.id, GetResponse(translate, reply.language, reply.input), true)];
    }
  }

  /** The question of the scripted conversation is not blank and asks for
      the services. */
  lemma ServicesQuestion(question: string)
    requires question == "Quels sont vos services?"
    ensures !IsBlank(question) && Classify(question) == ServicesReply
  {
    assert !IsSpace(question[0]);
    assert OccursAt(question, "service", 15);
    ServiceWordsWin(question, "service");
  }

  /** The conversation of a freshly mounted widget for a question that asks
      for the services (such as "Quels sont vos services?"): the greeting
      (id 1), the question (id 2) and, once the timer fires, the services
      reply (id 3); the input box is empty again. */
  method ServicesConversation(translate: (string, string) -> string, language: string, question: string)
    returns (log: seq<Message>, input: string)
    requires !IsBlank(question) && Classify(question) == ServicesReply
    ensures log == [Message(1, translate(language, GreetingKey), true),
                    Message(2, question, false),
                    Message(3, translate(language, "chatbot.services"), true)]
    ensures input == ""
  {
    var w := new ChatWidget(translate, language);
    w.SetInput(question);
    w.SendMessage();
    w.DeliverReply();
    log, input := w.messages, w.inputMessage;
  }

  /** Two sends before the first reply: each takes its ids from the log
      length at its own send, so the second user message and the first
      reply share id 3. */
  method DuplicateIdsConversation(translate: (string, string) -> string, language: string, first: string, second: string)
    returns (ids: seq<int>)
    requires !IsBlank(first) && !IsBlank(second)
    ensures ids == [1, 2, 3, 3, 4]
  {
    var w := new ChatWidget(translate, language);
    w.SetInput(first);
    w.SendMessage();
    w.SetInput(second);
    w.SendMessage();
    w.DeliverReply();
    w.DeliverReply();
    var m := w.messages;
    ids := [m[0].id, m[1].id, m[2].id, m[3].id, m[4].id];
  }

  /** A reply scheduled before a language change still arrives after the
      new greeting, with the id and the language of before the reset. */
  method LateReplyAfterReset(translate: (string, string) -> string, language: string, newLanguage: string, text: string)
    returns (log: seq<Message>)
    requires !IsBlank(text) && newLanguage != language
    ensures log == [Greeting(translate, newLanguage), Message(3, GetResponse(translate, language, text), true)]
  {
    var w := new ChatWidget(translate, language);
    w.SetInput(text);
    w.SendMessage();
    w.ChangeLanguage(newLanguage);
    w.DeliverReply();
    log := w.messages;
  }
}
