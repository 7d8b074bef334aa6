/**
 * The reply dispatcher of the chat bot (`generateResponse`) as a function of the
 * two answer stores, with the routing that `processUserMessage` derives from a
 * reply's text.
 */
module Reply {
  import opened Options
  import opened Text

  /** One learned question/answer pair of `exampleData`. */
  datatype Example = Example(question: string, answer: string)

  /** The keyword that sends a message to the compound database. */
  const PubChemKeyword := "pubchem"

  /** The reply to a compound-database message; its text is also the marker routing the turn. */
  const PubChemReply := "Coletando dados do PubChem..."

  /** The marker ending the reply that sends a message to the web search. */
  const WebMarker := "Pesquisando na web..."

  /** The reply when nothing else applies; it quotes the message as typed, not lowered. */
  function WebFallback(message: string): string
  {
    "Não tenho certeza da resposta para \"" + message + "\". " + WebMarker
  }

  const GreetingAnswer := "Olá! Como posso ajudar você hoje?"
  const NameAnswer := "Eu sou um bot test 05 pasta 2"
  const HelpAnswer := "Eu ajudo a responder perguntas. " + "Se não souber, posso buscar na web."

  /** The fixed answer table the bot starts with. */
  function SeedAnswers(): map<string, string>
  {
    map["ola" := GreetingAnswer, "como se chama" := NameAnswer, "o que voce faz" := HelpAnswer]
  }

  // The character class of `isMathExpression`: the digits, `+ - * / ( ) . ^`,
  // the letters `s q r t` and `\s`.
  predicate IsMathChar(c: char)
  {
    IsDigit(c) || c in "+-*/().^sqrt" || IsJsSpace(c)
  }

  /** `isMathExpression`: the whole text is one or more characters of the class. */
  predicate IsMathExpression(text: string)
  {
    |text| > 0 && forall i | 0 <= i < |text| :: IsMathChar(text[i])
  }

  /**
   * `evaluateMathExpression`, given the arithmetic library as `evaluate`: the
   * printed result when evaluation succeeds, the failure text when it throws.
   */
  function EvaluateMath(expression: string, evaluate: string -> Option<string>): string
  {
    match evaluate(expression)
    case Some(result) => ResultOpening + expression + "\" é " + result + "."
    case None => FailureOpening + expression + FailureClosing
  }

  /** How a successful evaluation reply opens, up to the quoted expression. */
  const ResultOpening := "O resultado de \""

  /** How a failed evaluation reply opens, up to the quoted expression. */
  const FailureOpening := "Não consegui calcular \""

  /** How a failed evaluation reply closes, after the quoted expression. */
  const FailureClosing := "\". Verifique a expressão " + "e tente novamente."

  /**
   * An arithmetic reply carries no routing marker unless the printed result brings
   * one: both the result and the apology for a failed calculation are offered for
   * learning, and a confirmed one becomes the stored answer for the expression.
   */
  lemma EvaluatorReplyIsLearnable(expression: string, evaluate: string -> Option<string>)
    requires IsMathExpression(expression)
    requires evaluate(expression).Some? ==> 'P' !in evaluate(expression).value
    ensures RouteOf(EvaluateMath(expression, evaluate)) == ToLearning
  {
    assert !IsMathChar('P');
    EvaluateMathLacksP(expression, evaluate);
    UnmarkedIsLearnable(EvaluateMath(expression, evaluate));
  }

  /** Neither reply template adds a capital P of its own. */
  lemma EvaluateMathLacksP(expression: string, evaluate: string -> Option<string>)
    requires 'P' !in expression
    requires evaluate(expression).Some? ==> 'P' !in evaluate(expression).value
    ensures 'P' !in EvaluateMath(expression, evaluate)
  {
    match evaluate(expression)
    case Some(result) =>
      assert 'P' !in ResultOpening && 'P' !in "\" é " && 'P' !in ".";
    case None =>
      assert 'P' !in FailureOpening;
      assert 'P' !in "\". Verifique a expressão " && 'P' !in "e tente novamente.";
  }

  /** The learned entry `e` answers the lowered question `q`. */
  predicate Asks(e: Example, q: string)
  {
    Lower(e.question) == q
  }

  /** The index of the earliest learned entry asking `q`. */
  function FirstLearned(examples: seq<Example>, q: string): (r: Option<nat>)
    ensures r.Some? ==> r.value < |examples| && Asks(examples[r.value], q)
    ensures r.Some? ==> forall j | 0 <= j < r.value :: !Asks(examples[j], q)
    ensures r.None? ==> forall j | 0 <= j < |examples| :: !Asks(examples[j], q)
  {
    if examples == [] then None
    else if Asks(examples[0], q) then Some(0)
    else
      match FirstLearned(examples[1..], q)
      case Some(i) => Some(i + 1)
      case None => None
  }

  /**
   * `generateResponse`: the reply to `message` given the fixed table `known`, the
   * learned list `examples` and the arithmetic library `evaluate`.
   */
  function Response(message: string, known: map<string, string>, examples: seq<Example>,
                    evaluate: string -> Option<string>): string
  {
    var q := Lower(message);
    if Contains(q, PubChemKeyword) then PubChemReply
    else
      match FirstLearned(examples, q)
      case Some(i) => examples[i].answer
      case None =>
        if q in known && known[q] != "" then known[q]
        else if IsMathExpression(q) then EvaluateMath(q, evaluate)
        else WebFallback(message)
  }

  /** What `processUserMessage` does after showing a reply, decided from the reply's text. */
  datatype Route = ToWebSearch | ToCompoundLookup | ToLearning

  function RouteOf(reply: string): Route
  {
    if Contains(reply, WebMarker) then ToWebSearch
    else if Contains(reply, PubChemReply) then ToCompoundLookup
    else ToLearning
  }

  // Precedence of the dispatcher's branches.

  /** A message mentioning the compound database gets the compound reply, whatever the stores hold. */
  lemma PubChemPrecedence(message: string, known: map<string, string>, examples: seq<Example>,
                          evaluate: string -> Option<string>)
    requires Contains(Lower(message), PubChemKeyword)
    ensures Response(message, known, examples, evaluate) == PubChemReply
  {
  }

  /** Otherwise the earliest learned entry asking the message, in any case, answers it. */
  lemma LearnedFirst(message: string, known: map<string, string>, examples: seq<Example>,
                     evaluate: string -> Option<string>, i: nat)
    requires !Contains(Lower(message), PubChemKeyword)
    requires i < |examples| && Lower(examples[i].question) == Lower(message)
    requires forall j | 0 <= j < i :: Lower(examples[j].question) != Lower(message)
    ensures Response(message, known, examples, evaluate) == examples[i].answer
  {
    var r := FirstLearned(examples, Lower(message));
    assert Asks(examples[i], Lower(message));
    assert r.Some? && r.value == i;
  }

  /** With no learned entry for it, a non-empty answer of the fixed table is the reply. */
  lemma KnownAnswerHit(message: string, known: map<string, string>, examples: seq<Example>,
                       evaluate: string -> Option<string>)
    requires !Contains(Lower(message), PubChemKeyword)
    requires forall j | 0 <= j < |examples| :: Lower(examples[j].question) != Lower(message)
    requires Lower(message) in known && known[Lower(message)] != ""
    ensures Response(message, known, examples, evaluate) == known[Lower(message)]
  {
    assert forall j | 0 <= j < |examples| :: !Asks(examples[j], Lower(message));
  }

  /**
   * Only when both stores miss is arithmetic tried, on the lowered message; what
   * is not arithmetic goes to the web search, quoting the message as typed.
   */
  lemma MathOrWeb(message: string, known: map<string, string>, examples: seq<Example>,
                  evaluate: string -> Option<string>)
    requires !Contains(Lower(message), PubChemKeyword)
    requires forall j | 0 <= j < |examples| :: Lower(examples[j].question) != Lower(message)
    requires !(Lower(message) in known && known[Lower(message)] != "")
    ensures Response(message, known, examples, evaluate) ==
      if IsMathExpression(Lower(message)) then EvaluateMath(Lower(message), evaluate)
      else WebFallback(message)
  {
    assert forall j | 0 <= j < |examples| :: !Asks(examples[j], Lower(message));
  }

  /** Messages that differ only in case get the same reply, except that a web fallback quotes each as typed. */
  lemma ResponseIgnoresCase(m1: string, m2: string, known: map<string, string>, examples: seq<Example>,
                            evaluate: string -> Option<string>)
    requires Lower(m1) == Lower(m2)
    ensures Response(m1, known, examples, evaluate) == Response(m2, known, examples, evaluate)
         || (Response(m1, known, examples, evaluate) == WebFallback(m1)
             && Response(m2, known, examples, evaluate) == WebFallback(m2))
  {
  }

  // The character class of the arithmetic test, seen from the message as typed.

  lemma LowerMathChar(c: char)
    ensures IsMathChar(LowerChar(c)) <==> IsMathChar(c) || c in "SQRT"
  {
    if 'A' <= c <= 'Z' {
      assert !IsJsSpace(LowerChar(c)) && !IsDigit(LowerChar(c));
      assert !IsMathChar(c);
    }
  }

  /**
   * The arithmetic test runs on the lowered message, so it accepts exactly the
   * non-empty messages made of the class's characters and of `S Q R T`.
   */
  lemma MathExpressionOfMessage(message: string)
    ensures IsMathExpression(Lower(message)) <==>
      |message| > 0 && forall i | 0 <= i < |message| :: IsMathChar(message[i]) || message[i] in "SQRT"
  {
    forall i | 0 <= i < |message| ensures IsMathChar(Lower(message)[i]) <==> IsMathChar(message[i]) || message[i] in "SQRT" {
      LowerMathChar(message[i]);
    }
  }

  // Learning.

  /** Appending an entry never displaces an earlier match; it is found only when nothing earlier asks `q`. */
  lemma {:induction false} FirstLearnedAppend(examples: seq<Example>, e: Example, q: string)
    ensures FirstLearned(examples + [e], q) ==
      match FirstLearned(examples, q)
      case Some(i) => Some(i)
      case None => if Asks(e, q) then Some(|examples|) else None
  {
    var ext := examples + [e];
    if examples == [] {
      assert ext[1..] == [];
    } else if !Asks(examples[0], q) {
      assert ext[0] == examples[0];
      assert ext[1..] == examples[1..] + [e];
      FirstLearnedAppend(examples[1..], e, q);
    } else {
      assert ext[0] == examples[0];
    }
  }

  /**
   * After learning `(question, answer)` — the table gets the lowered question, the
   * list the pair — any case variant of a question that nothing learned before asks,
   * and that does not mention the compound database, is answered with `answer`.
   */
  lemma LearnThenRecall(known: map<string, string>, examples: seq<Example>, question: string,
                        answer: string, message: string, evaluate: string -> Option<string>)
    requires Lower(message) == Lower(question)
    requires !Contains(Lower(question), PubChemKeyword)
    requires forall j | 0 <= j < |examples| :: Lower(examples[j].question) != Lower(question)
    ensures Response(message, known[Lower(question) := answer], examples + [Example(question, answer)], evaluate)
         == answer
  {
    assert forall j | 0 <= j < |examples| :: !Asks(examples[j], Lower(question));
    FirstLearnedAppend(examples, Example(question, answer), Lower(question));
  }

  /** The compound reply routes to the compound lookup, not to the web search. */
  lemma PubChemReplyRoutesToLookup()
    ensures RouteOf(PubChemReply) == ToCompoundLookup
  {
    AbsentCharNotContained(PubChemReply, WebMarker, 'w');
    ContainsItself(PubChemReply);
  }

  /** A web fallback routes to the web search. */
  lemma WebFallbackRoutesToSearch(message: string)
    ensures RouteOf(WebFallback(message)) == ToWebSearch
  {
    ContainsSuffix("Não tenho certeza da resposta para \"" + message + "\". ", WebMarker);
  }

  /** Whatever the stores hold, a message mentioning the compound database starts a compound lookup and is never learned. */
  lemma PubChemTurn(message: string, known: map<string, string>, examples: seq<Example>,
                    evaluate: string -> Option<string>)
    requires Contains(Lower(message), PubChemKeyword)
    ensures RouteOf(Response(message, known, examples, evaluate)) == ToCompoundLookup
  {
    PubChemReplyRoutesToLookup();
  }

  /**
   * A reply that is learned is given again: once `(message, reply)` is stored, any
   * case variant of `message` gets `reply` back, whichever branch produced it.
   */
  lemma LearnedReplyIsStable(message: string, variant: string, known: map<string, string>,
                             examples: seq<Example>, evaluate: string -> Option<string>)
    requires Lower(variant) == Lower(message)
    requires RouteOf(Response(message, known, examples, evaluate)) == ToLearning
    ensures var reply := Response(message, known, examples, evaluate);
      Response(variant, known[Lower(message) := reply], examples + [Example(message, reply)], evaluate) == reply
  {
    var q := Lower(message);
    var reply := Response(message, known, examples, evaluate);
    if Contains(q, PubChemKeyword) {
      PubChemReplyRoutesToLookup();
    } else {
      FirstLearnedAppend(examples, Example(message, reply), q);
      if FirstLearned(examples, q).None? && !(q in known && known[q] != "") && !IsMathExpression(q) {
        WebFallbackRoutesToSearch(message);
      }
    }
  }

  /** A reply without a capital P carries neither routing marker. */
  lemma UnmarkedIsLearnable(reply: string)
    requires 'P' !in reply
    ensures RouteOf(reply) == ToLearning
  {
    AbsentCharNotContained(reply, WebMarker, 'P');
    AbsentCharNotContained(reply, PubChemReply, 'P');
  }

  lemma GreetingAnswerIsLearnable()
    ensures RouteOf(GreetingAnswer) == ToLearning
  {
    assert 'P' !in GreetingAnswer;
    UnmarkedIsLearnable(GreetingAnswer);
  }

  lemma NameAnswerIsLearnable()
    ensures RouteOf(NameAnswer) == ToLearning
  {
    assert 'P' !in NameAnswer;
    UnmarkedIsLearnable(NameAnswer);
  }

  lemma HelpAnswerIsLearnable()
    ensures RouteOf(HelpAnswer) == ToLearning
  {
    assert 'P' !in "Eu ajudo a responder perguntas. ";
    assert 'P' !in "Se não souber, posso buscar na web.";
    UnmarkedIsLearnable(HelpAnswer);
  }

  /** None of the fixed table's answers carries a routing marker, so each of them can be learned. */
  lemma SeedAnswersAreLearnable()
    ensures forall k | k in SeedAnswers() :: RouteOf(SeedAnswers()[k]) == ToLearning
  {
    GreetingAnswerIsLearnable();
    NameAnswerIsLearnable();
    HelpAnswerIsLearnable();
    forall k | k in SeedAnswers() ensures RouteOf(SeedAnswers()[k]) == ToLearning {
      assert SeedAnswers()[k] in {GreetingAnswer, NameAnswer, HelpAnswer};
    }
  }
}
