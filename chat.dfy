/**
 * The conversation objects: the message log of `ChatUI` and the `ChatBot` whose
 * answer stores grow as the user confirms replies. Outbound network requests are
 * recorded, not performed; what the three asynchronous flows later render is not
 * part of this model.
 */
module Chat {
  import opened Options
  import opened Text
  import opened PubChemKey
  import opened Reply

  /** The role a rendered message is tagged with (`user-message`, `bot-message`, `chatgpt-message`). */
  datatype Role = UserMessage | BotMessage | TranslatedMessage

  datatype Entry = Entry(content: string, role: Role)

  /** The conversation log, append-only. */
  class ChatUI {
    var messages: seq<Entry>

    constructor ()
      ensures messages == []
    {
      messages := [];
    }

    method AppendMessage(content: string, role: Role)
      modifies this
      ensures messages == old(messages) + [Entry(content, role)]
    {
      messages := messages + [Entry(content, role)];
    }
  }

  /** A network request the bot has issued. */
  datatype Request =
    | CompoundGet(url: string)
    | SearchGet(query: string)
    | TranslatePost(text: string, target: string, apiKey: string)

  /** The requests a turn's follow-up issues before the translation request. */
  function FollowUpRequests(route: Route, message: string): seq<Request>
  {
    match route
    case ToWebSearch => [SearchGet(message)]
    case ToCompoundLookup =>
      (match SelectLookupKey(message)
       case Some(key) => [CompoundGet(LookupUrl(key))]
       case None => [])
    case ToLearning => []
  }

  /** The messages a turn's follow-up renders at once: only the validation message of a keyless lookup. */
  function FollowUpMessages(route: Route, message: string): seq<Entry>
  {
    if route == ToCompoundLookup && SelectLookupKey(message).None? then [Entry(InvalidKeyMessage, BotMessage)]
    else []
  }

  class ChatBot {
    const chatUI: ChatUI
    /** The arithmetic library: the printed result, or `None` when evaluation throws. */
    const evaluate: string -> Option<string>
    const apiKey: string
    const targetLanguage: string
    var knownAnswers: map<string, string>
    var exampleData: seq<Example>
    var requests: seq<Request>

    /** Every stored answer is a reply that, given again, leads to learning rather than to a lookup. */
    ghost predicate StoresOnlyLearnable()
      reads this
    {
      && (forall k | k in knownAnswers :: RouteOf(knownAnswers[k]) == ToLearning)
      && (forall i | 0 <= i < |exampleData| :: RouteOf(exampleData[i].answer) == ToLearning)
    }

    constructor (chatUI: ChatUI, evaluate: string -> Option<string>)
      ensures this.chatUI == chatUI && this.evaluate == evaluate
      ensures apiKey == "YOUR_API_KEY" && targetLanguage == "en"
      ensures knownAnswers == SeedAnswers() && exampleData == [] && requests == []
      ensures StoresOnlyLearnable()
    {
      this.chatUI := chatUI;
      this.evaluate := evaluate;
      apiKey := "YOUR_API_KEY";
      targetLanguage := "en";
      knownAnswers := SeedAnswers();
      exampleData := [];
      requests := [];
      SeedAnswersAreLearnable();
    }

    /**
     * One turn: log the message, then the reply; follow up on the reply's text
     * (web search first, then compound lookup, otherwise learning, subject to the
     * user's confirmation); always request a translation of the reply.
     */
    method ProcessUserMessage(message: string, confirmed: bool)
      modifies this, chatUI
      ensures var reply := Response(message, old(knownAnswers), old(exampleData), evaluate);
        var route := RouteOf(reply);
        && chatUI.messages == old(chatUI.messages) + [Entry(message, UserMessage), Entry(reply, BotMessage)]
                              + FollowUpMessages(route, message)
        && requests == old(requests) + FollowUpRequests(route, message)
                       + [TranslatePost(reply, targetLanguage, apiKey)]
        && (if route == ToLearning && confirmed then
              knownAnswers == old(knownAnswers)[Lower(message) := reply]
              && exampleData == old(exampleData) + [Example(message, reply)]
            else
              knownAnswers == old(knownAnswers) && exampleData == old(exampleData))
      ensures old(StoresOnlyLearnable()) ==> StoresOnlyLearnable()
    {
      chatUI.AppendMessage(message, UserMessage);
      var response := GenerateResponse(message);
      chatUI.AppendMessage(response, BotMessage);
      FollowUp(RouteOf(response), message, response, confirmed);
      TranslateResponse(response);
    }

    /** The dispatch in `processUserMessage` on the reply's text, before the translation request. */
    method FollowUp(route: Route, message: string, response: string, confirmed: bool)
      modifies this`requests, this`knownAnswers, this`exampleData, chatUI
      ensures chatUI.messages == old(chatUI.messages) + FollowUpMessages(route, message)
        && requests == old(requests) + FollowUpRequests(route, message)
        && (if route == ToLearning && confirmed then
              knownAnswers == old(knownAnswers)[Lower(message) := response]
              && exampleData == old(exampleData) + [Example(message, response)]
            else
              knownAnswers == old(knownAnswers) && exampleData == old(exampleData))
    {
      match route {
        case ToWebSearch => SearchWeb(message);
        case ToCompoundLookup => FetchPubChemData(message);
        case ToLearning => LearnNewAnswer(message, response, confirmed);
      }
    }

    /** `generateResponse`, scanning the learned list in order and stopping at the first match. */
    method GenerateResponse(message: string) returns (response: string)
      ensures response == Response(message, knownAnswers, exampleData, evaluate)
    {
      var userQuestion := Lower(message);
      if Contains(userQuestion, PubChemKeyword) {
        return PubChemReply;
      }
      var i := 0;
      while i < |exampleData|
        invariant 0 <= i <= |exampleData|
        invariant forall j | 0 <= j < i :: !Asks(exampleData[j], userQuestion)
      {
        if userQuestion == Lower(exampleData[i].question) {
          assert Asks(exampleData[i], userQuestion);
          return exampleData[i].answer;
        }
        i := i + 1;
      }
      if userQuestion in knownAnswers && knownAnswers[userQuestion] != "" {
        response := knownAnswers[userQuestion];
      } else if IsMathExpression(userQuestion) {
        response := EvaluateMath(userQuestion, evaluate);
      } else {
        response := WebFallback(message);
      }
    }

    /** The synchronous part of `fetchPubChemData`: choose the key, then request it or show the validation message. */
    method FetchPubChemData(message: string)
      modifies this`requests, chatUI
      ensures match SelectLookupKey(message)
        case Some(key) =>
          requests == old(requests) + [CompoundGet(LookupUrl(key))] && chatUI.messages == old(chatUI.messages)
        case None =>
          requests == old(requests) && chatUI.messages == old(chatUI.messages) + [Entry(InvalidKeyMessage, BotMessage)]
    {
      var cidMatch := FirstMatch(message, CidPattern);
      var nameMatch := FirstMatch(message, NamePattern);
      var url;
      if cidMatch.Some? {
        url := LookupUrl(ByCid(cidMatch.value));
      } else if nameMatch.Some? {
        url := LookupUrl(ByName(nameMatch.value));
      } else {
        chatUI.AppendMessage(InvalidKeyMessage, BotMessage);
        return;
      }
      requests := requests + [CompoundGet(url)];
    }

    /**
     * `learnNewAnswer`: on confirmation the table maps the lowered question to the
     * answer and the pair is appended to the learned list; on refusal nothing changes.
     */
    method LearnNewAnswer(question: string, answer: string, confirmed: bool)
      modifies this`knownAnswers, this`exampleData
      ensures confirmed ==> knownAnswers == old(knownAnswers)[Lower(question) := answer]
      ensures confirmed ==> exampleData == old(exampleData) + [Example(question, answer)]
      ensures !confirmed ==> knownAnswers == old(knownAnswers) && exampleData == old(exampleData)
    {
      if confirmed {
        knownAnswers := knownAnswers[Lower(question) := answer];
        exampleData := exampleData + [Example(question, answer)];
      }
    }

    /** The synchronous part of `searchWeb`: one search request for the query as typed. */
    method SearchWeb(query: string)
      modifies this`requests
      ensures requests == old(requests) + [SearchGet(query)]
    {
      requests := requests + [SearchGet(query)];
    }

    /** The synchronous part of `translateResponse`: one translation request for the reply. */
    method TranslateResponse(response: string)
      modifies this`requests
      ensures requests == old(requests) + [TranslatePost(response, targetLanguage, apiKey)]
    {
      requests := requests + [TranslatePost(response, targetLanguage, apiKey)];
    }
  }
}
