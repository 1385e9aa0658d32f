/** The keyword heuristic `shouldHandoff` of the coordinator
    (`coordinator.ts`): four prioritised rules, each a keyword list, a target
    agent, a reason and a confidence. */
module HandoffPolicy {
  import opened Wrappers
  import opened Types
  import opened Seqs
  import opened Text
  import Agents

  datatype Rule = Rule(keywords: seq<string>, target: string, reason: string, confidence: real)

  const DocumentRule: Rule := Rule(
    ["document", "write", "edit", "create", "update", "draft"],
    "document-specialist",
    "Task requires document management capabilities",
    0.8)

  const TechnicalRule: Rule := Rule(
    ["code", "debug", "programming", "function", "class", "method", "bug"],
    "technical-specialist",
    "Task requires technical programming expertise",
    0.85)

  const ResearchRule: Rule := Rule(
    ["research", "find", "search", "weather", "data", "information"],
    "research-agent",
    "Task requires research and information gathering",
    0.75)

  const CreativeRule: Rule := Rule(
    ["suggest", "ideas", "creative", "brainstorm", "generate"],
    "creative-assistant",
    "Task requires creative assistance and ideation",
    0.7)

  /** The rules in the order they are tried. */
  const Rules: seq<Rule> := [DocumentRule, TechnicalRule, ResearchRule, CreativeRule]

  /** The decision returned when no rule fires: no target, reason or
      confidence. */
  const NoHandoff: HandoffDecision := HandoffDecision(false, None, None, None)

  /** The words of a message: its lower-cased text split at every single
      space, so the words are exactly the space-free pieces that joined with
      single spaces give back the lower-cased message. */
  function Tokenize(message: string): (words: seq<string>)
    ensures |words| >= 1
    ensures forall i :: 0 <= i < |words| ==> ' ' !in words[i] && IsLowerCase(words[i])
    ensures Join(words, " ") == Lower(message)
  {
    var words := Split(Lower(message), ' ');
    forall i | 0 <= i < |words|
      ensures IsLowerCase(words[i])
    {
      WordsOfLowerCase(words, i);
    }
    words
  }

  /** A piece of a lower-case joined string is lower-case. */
  lemma {:induction false} WordsOfLowerCase(words: seq<string>, i: nat)
    requires i < |words|
    requires IsLowerCase(Join(words, " "))
    ensures IsLowerCase(words[i])
    decreases |words|
  {
    if |words| > 1 {
      var rest := Join(words[1..], " ");
      assert Join(words, " ") == words[0] + " " + rest;
      if i == 0 {
        forall k | 0 <= k < |words[0]|
          ensures !IsUpper(words[0][k])
        {
          assert words[0][k] == Join(words, " ")[k];
        }
      } else {
        forall k | 0 <= k < |rest|
          ensures !IsUpper(rest[k])
        {
          assert rest[k] == Join(words, " ")[|words[0]| + 1 + k];
        }
        WordsOfLowerCase(words[1..], i - 1);
      }
    }
  }

  /** Some word of the message equals one of the keywords exactly. */
  predicate Mentions(words: seq<string>, keywords: seq<string>) {
    exists w :: w in words && w in keywords
  }

  /** A rule fires when the message mentions one of its keywords and its
      target is not the current agent. */
  predicate Fires(rule: Rule, words: seq<string>, currentId: string) {
    Mentions(words, rule.keywords) && rule.target != currentId
  }

  /** The handoff a fired rule asks for. */
  function Decide(rule: Rule): HandoffDecision {
    HandoffDecision(true, Some(rule.target), Some(rule.reason), Some(rule.confidence))
  }

  /** `shouldHandoff`: the decision of the first rule that fires, or no
      handoff. It reads only the message and the current agent's id; the
      context argument is ignored. */
  function ShouldHandoff(message: string, currentAgent: Agent, context: Json): (d: HandoffDecision)
    ensures d.shouldHandoff ==> d.targetAgent.Some? && d.targetAgent.value != currentAgent.id && d.targetAgent.value != ""
    ensures d.shouldHandoff ==> d.reason.Some? && d.reason.value != ""
    ensures !d.shouldHandoff ==> d == NoHandoff
  {
    var words := Tokenize(message);
    var k := FirstIndex(Rules, (r: Rule) => Fires(r, words, currentAgent.id));
    if k < |Rules| then Decide(Rules[k]) else NoHandoff
  }

  /** The decision is a handoff exactly when some rule fires, and then it is
      the decision of the first rule that fires. */
  lemma FirstFiringRule(message: string, currentAgent: Agent, context: Json)
    ensures var d := ShouldHandoff(message, currentAgent, context);
      var words := Tokenize(message);
      && (d.shouldHandoff <==> exists i :: 0 <= i < |Rules| && Fires(Rules[i], words, currentAgent.id))
      && forall i :: 0 <= i < |Rules| && Fires(Rules[i], words, currentAgent.id) ==>
           exists k :: 0 <= k <= i && Fires(Rules[k], words, currentAgent.id) && d == Decide(Rules[k])
             && forall j :: 0 <= j < k ==> !Fires(Rules[j], words, currentAgent.id)
  {
    var words := Tokenize(message);
    var k := FirstIndex(Rules, (r: Rule) => Fires(r, words, currentAgent.id));
    forall i | 0 <= i < |Rules| && Fires(Rules[i], words, currentAgent.id)
      ensures exists k :: 0 <= k <= i && Fires(Rules[k], words, currentAgent.id)
                && ShouldHandoff(message, currentAgent, context) == Decide(Rules[k])
                && forall j :: 0 <= j < k ==> !Fires(Rules[j], words, currentAgent.id)
    {
      assert k <= i;
    }
  }

  /** Every rule target is a catalog agent. */
  lemma RuleTargetsKnown()
    ensures forall i :: 0 <= i < |Rules| ==> Agents.Known(Rules[i].target)
  {
    forall i | 0 <= i < |Rules|
      ensures Agents.Known(Rules[i].target)
    {
      RuleTargetKnown(i);
    }
  }

  /** The catalog position of each rule's target. */
  lemma RuleTargetKnown(i: nat)
    requires i < |Rules|
    ensures Agents.Known(Rules[i].target)
  {
    var k := if i == 0 then 2 else if i == 1 then 1 else if i == 2 then 3 else 4;
    assert Agents.AvailableAgents[k].id == Rules[i].target;
  }

  /** The document rule has top priority: a message mentioning a document
      keyword hands off to the document specialist from any other agent,
      whatever else the message mentions. */
  lemma DocumentRuleFirst(message: string, currentAgent: Agent, context: Json)
    requires Mentions(Tokenize(message), DocumentRule.keywords)
    requires currentAgent.id != DocumentRule.target
    ensures ShouldHandoff(message, currentAgent, context) == Decide(DocumentRule)
  {
    FirstFiringRule(message, currentAgent, context);
    assert Fires(Rules[0], Tokenize(message), currentAgent.id);
  }

  /** A rule whose target is already current does not stop evaluation: the
      next rule is tried. With the document specialist current, a message
      mentioning document and technical keywords goes to the technical
      specialist. */
  lemma CurrentTargetFallsThrough(message: string, currentAgent: Agent, context: Json)
    requires currentAgent.id == DocumentRule.target
    requires Mentions(Tokenize(message), TechnicalRule.keywords)
    ensures ShouldHandoff(message, currentAgent, context) == Decide(TechnicalRule)
  {
    var words := Tokenize(message);
    FirstFiringRule(message, currentAgent, context);
    assert !Fires(Rules[0], words, currentAgent.id);
    assert Fires(Rules[1], words, currentAgent.id);
  }

  /** The decision depends only on the message and the current agent's id. */
  lemma DecisionDependsOnIdOnly(message: string, a: Agent, b: Agent, c1: Json, c2: Json)
    requires a.id == b.id
    ensures ShouldHandoff(message, a, c1) == ShouldHandoff(message, b, c2)
  {
  }

  /** With the technical specialist current, "write and debug" hands off to the document specialist with confidence 0.8:
      the document rule is tried before the technical one. */
  lemma WriteAndDebugExample(message: string, context: Json)
    requires message == "write and debug"
    ensures ShouldHandoff(message, Agents.TechnicalSpecialist, context)
         == HandoffDecision(true, Some("document-specialist"), Some("Task requires document management capabilities"), Some(0.8))
  {
    var words := ["write", "and", "debug"];
    WriteAndDebugTokens(message);
    assert "write" in words && "write" in DocumentRule.keywords;
    DocumentRuleFirst(message, Agents.TechnicalSpecialist, context);
  }

  lemma WriteAndDebugTokens(message: string)
    requires message == "write and debug"
    ensures Tokenize(message) == ["write", "and", "debug"]
  {
    var words := ["write", "and", "debug"];
    WriteAndDebugJoin(message, words);
    WriteAndDebugLowerCase(message);
    TokensOf(message, words);
  }

  lemma WriteAndDebugJoin(message: string, words: seq<string>)
    requires message == "write and debug"
    requires words == ["write", "and", "debug"]
    ensures Join(words, " ") == message
  {
    var w := ["write", "and", "debug"];
    assert Join(w, " ") == message;
  }

  lemma WriteAndDebugLowerCase(message: string)
    requires message == "write and debug"
    ensures IsLowerCase(message)
  {
  }

  /** Keywords match whole words only: "write," (with a comma) is not the
      keyword "write", so from the default agent nothing fires. */
  lemma PunctuationDefeatsKeyword(message: string, context: Json)
    requires message == "write, please"
    ensures ShouldHandoff(message, Agents.GeneralReasoning, context) == NoHandoff
  {
    var words := ["write,", "please"];
    PunctuationTokens(message, words);
    FirstFiringRule(message, Agents.GeneralReasoning, context);
    forall i | 0 <= i < |Rules|
      ensures !Mentions(words, Rules[i].keywords)
    {
      WriteCommaMentionsNothing(words, i);
    }
  }

  lemma PunctuationTokens(message: string, words: seq<string>)
    requires message == "write, please" && words == ["write,", "please"]
    ensures Tokenize(message) == words
  {
    assert Join(words, " ") == message by {
      assert Join(words[1..], " ") == "please";
    }
    assert IsLowerCase(message);
    TokensOf(message, words);
  }

  lemma WriteCommaMentionsNothing(words: seq<string>, i: nat)
    requires words == ["write,", "please"] && i < |Rules|
    ensures !Mentions(words, Rules[i].keywords)
  {
    var keywords := Rules[i].keywords;
    forall w | w in words
      ensures w !in keywords
    {
      assert w == "write," || w == "please";
    }
  }

  /** Upper case in the message does not matter: "Research the WEATHER"
      hands off from the default agent to the research agent. */
  lemma CaseInsensitiveExample(message: string, context: Json)
    requires message == "Research the WEATHER"
    ensures ShouldHandoff(message, Agents.GeneralReasoning, context) == Decide(ResearchRule)
  {
    var words := ["research", "the", "weather"];
    CaseInsensitiveTokens(message);
    ResearchTheWeatherMentions(words);
    FirstFiringRule(message, Agents.GeneralReasoning, context);
    assert !Fires(Rules[0], words, Agents.GeneralReasoning.id);
    assert !Fires(Rules[1], words, Agents.GeneralReasoning.id);
    assert Fires(Rules[2], words, Agents.GeneralReasoning.id);
  }

  lemma ResearchTheWeatherMentions(words: seq<string>)
    requires words == ["research", "the", "weather"]
    ensures !Mentions(words, DocumentRule.keywords)
    ensures !Mentions(words, TechnicalRule.keywords)
    ensures Mentions(words, ResearchRule.keywords)
  {
    assert words[0] in ResearchRule.keywords;
  }

  lemma CaseInsensitiveTokens(message: string)
    requires message == "Research the WEATHER"
    ensures Tokenize(message) == ["research", "the", "weather"]
  {
    var words := ["research", "the", "weather"];
    ResearchTheWeatherLower(message);
    assert Join(words, " ") == "research the weather" by {
      assert Join(words[1..], " ") == "the weather";
    }
    SplitJoin(words, ' ');
  }

  lemma ResearchTheWeatherLower(message: string)
    requires message == "Research the WEATHER"
    ensures Lower(message) == "research the weather"
  {
    var l := Lower(message);
    assert l[0] == 'r' && l[13] == 'w' && l[14] == 'e' && l[15] == 'a';
    assert l[16] == 't' && l[17] == 'h' && l[18] == 'e' && l[19] == 'r';
  }

  /** The words of an already lower-case message joined from space-free
      words are those words. */
  lemma TokensOf(message: string, words: seq<string>)
    requires |words| >= 1
    requires forall i :: 0 <= i < |words| ==> ' ' !in words[i]
    requires Join(words, " ") == message
    requires IsLowerCase(message)
    ensures Tokenize(message) == words
  {
    SplitJoin(words, ' ');
  }
}
