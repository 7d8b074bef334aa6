/** Example conversations, checked against the model. */
module Scenarios {
  import opened Options
  import opened Text
  import opened PubChemKey
  import opened Reply
  import opened Chat

  /** "ola" is answered from the fixed table, and the answer is one that can be learned. */
  lemma GreetingScenario(evaluate: string -> Option<string>)
    ensures Response("ola", SeedAnswers(), [], evaluate) == "Olá! Como posso ajudar você hoje?"
    ensures RouteOf(Response("ola", SeedAnswers(), [], evaluate)) == ToLearning
  {
    assert Lower("ola") == "ola";
    AbsentCharNotContained("ola", PubChemKeyword, 'p');
    UnmarkedIsLearnable(GreetingAnswer);
  }

  /** "2+2" misses both stores and is evaluated; the library printing 4 gives the result reply. */
  lemma ArithmeticScenario(evaluate: string -> Option<string>)
    requires evaluate("2+2") == Some("4")
    ensures Response("2+2", SeedAnswers(), [], evaluate) == "O resultado de \"2+2\" é 4."
  {
    assert Lower("2+2") == "2+2";
    AbsentCharNotContained("2+2", PubChemKeyword, 'p');
    assert IsMathExpression("2+2");
  }

  /** An unknown question goes to the web search, quoted as typed. */
  lemma UnknownQuestionScenario(evaluate: string -> Option<string>)
    ensures Response("what is quantum tunneling", SeedAnswers(), [], evaluate)
         == WebFallback("what is quantum tunneling")
    ensures RouteOf(Response("what is quantum tunneling", SeedAnswers(), [], evaluate)) == ToWebSearch
  {
    var m := "what is quantum tunneling";
    UnknownQuestionMisses(m);
    MathOrWeb(m, SeedAnswers(), [], evaluate);
    WebFallbackRoutesToSearch(m);
  }

  /**
   * The question is already lower-case, names no compound, is not arithmetic and is not in the table.
   * The question arrives as a parameter fixed by `requires`, so that the verifier
   * does not unfold the string literal eagerly; a literal in the body makes the proof far costlier.
   */
  lemma UnknownQuestionMisses(m: string)
    requires m == "what is quantum tunneling"
    ensures Lower(m) == m && !Contains(m, PubChemKeyword)
    ensures !IsMathExpression(m) && m !in SeedAnswers()
  {
    UnknownQuestionIsLower(m);
    AbsentCharNotContained(m, PubChemKeyword, 'p');
    assert !IsMathChar(m[0]);
    assert m !in SeedAnswers();
  }

  /** The question has no upper-case letter; the literal is a parameter for the reason given above. */
  lemma UnknownQuestionIsLower(m: string)
    requires m == "what is quantum tunneling"
    ensures Lower(m) == m
  {
    forall i | 0 <= i < |m| ensures !('A' <= m[i] <= 'Z') {
    }
    LowerKeepsLowerCase(m);
  }

  /** "pubchem cid 2244" gets the compound reply whatever is stored, and is looked up by CID 2244. */
  lemma CompoundByIdScenario(known: map<string, string>, examples: seq<Example>,
                             evaluate: string -> Option<string>)
    ensures Response("pubchem cid 2244", known, examples, evaluate) == PubChemReply
    ensures SelectLookupKey("pubchem cid 2244") == Some(ByCid("2244"))
  {
    var m := "pubchem cid 2244";
    assert Lower(m)[..7] == PubChemKeyword;
    assert OccursAt(Lower(m), PubChemKeyword, 0);
    CompoundByIdKey();
  }

  lemma CompoundByIdKey()
    ensures SelectLookupKey("pubchem cid 2244") == Some(ByCid("2244"))
  {
    CidCapturedAt8();
    NoCidBefore8();
  }

  lemma CidCapturedAt8()
    ensures MatchAt("pubchem cid 2244", 8, CidPattern) == Some("2244")
  {
    var m := "pubchem cid 2244";
    assert Lower(m[8..11]) == "cid";
    RunEndUnique(m, 11, 12, Space);
    RunEndUnique(m, 12, 16, Digits);
    assert m[12..16] == "2244";
  }

  /** The scan for `cid` passes over the first eight positions. */
  lemma NoCidBefore8()
    ensures FirstMatchIndex("pubchem cid 2244", 0, CidPattern) == FirstMatchIndex("pubchem cid 2244", 8, CidPattern)
  {
    var m := "pubchem cid 2244";
    forall k | 0 <= k < 8 ensures LowerChar(m[k]) != 'c' || LowerChar(m[k + 1]) != 'i' {
    }
    ScanSkips(m, 0, 8, CidPattern);
  }

  /** A fresh bot answers "ola" from its table: no lookup, only the translation request, and the pair is learned. */
  method GreetingTurn(evaluate: string -> Option<string>) returns (log: seq<Entry>, sent: seq<Request>, learned: seq<Example>)
    ensures log == [Entry("ola", UserMessage), Entry(GreetingAnswer, BotMessage)]
    ensures sent == [TranslatePost(GreetingAnswer, "en", "YOUR_API_KEY")]
    ensures learned == [Example("ola", GreetingAnswer)]
  {
    var ui := new ChatUI();
    var bot := new ChatBot(ui, evaluate);
    GreetingScenario(evaluate);
    bot.ProcessUserMessage("ola", true);
    log, sent, learned := ui.messages, bot.requests, bot.exampleData;
  }

  /** After "ola" is learned, "OLA" is answered from the learned list with the same greeting. */
  method RepeatedGreeting(evaluate: string -> Option<string>) returns (second: string)
    ensures second == GreetingAnswer
  {
    second := AskTwice(evaluate, "ola", "OLA");
  }

  /**
   * A fresh bot is asked `first`, which it learns, and then `again`. The two
   * messages are parameters fixed by `requires` rather than literals in the body,
   * so that the verifier does not unfold the literals eagerly, which makes the proof far costlier.
   */
  method AskTwice(evaluate: string -> Option<string>, first: string, again: string) returns (second: string)
    requires first == "ola" && again == "OLA"
    ensures second == GreetingAnswer
  {
    var ui := new ChatUI();
    var bot := new ChatBot(ui, evaluate);
    GreetingScenario(evaluate);
    bot.ProcessUserMessage(first, true);
    assert Lower(again) == Lower(first);
    LearnedReplyIsStable(first, again, SeedAnswers(), [], evaluate);
    second := bot.GenerateResponse(again);
  }
}
