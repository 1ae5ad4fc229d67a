/** The article workflow's state machine (`WorkflowManager` of
    `week5_project/project/workflow_backend.py`): research, generate and
    fact-check run one step at a time until human review; feedback either
    approves the article or sends it through reflection and back to
    generation. The four nodes are remote chains and are parameters. */
module Workflow {
  import opened Wrappers
  import opened Text
  import opened Seqs

  /** A LangChain message by class. */
  datatype Message = Human(content: string) | System(content: string) | Ai(content: string)

  /** The current step; `NoStep` is the `None` of a fresh or reset manager. */
  datatype Step = NoStep | Research | Generate | FactCheck | Reflect | HumanReview | End

  function StepName(step: Step): string {
    match step
    case NoStep => "None"
    case Research => "research"
    case Generate => "generate"
    case FactCheck => "fact_check"
    case Reflect => "reflect"
    case HumanReview => "HUMAN_REVIEW"
    case End => "END"
  }

  /** Step names are distinct, so a returned name identifies the step. */
  lemma StepNameInjective(a: Step, b: Step)
    ensures StepName(a) == StepName(b) ==> a == b
  {
  }

  datatype Manager = Manager(step: Step, state: seq<Message>)

  /** A node either returns or raises with a message. */
  datatype Nodes = Nodes(
    research: seq<Message> -> Result<seq<Message>, string>,
    generate: seq<Message> -> Result<Message, string>,
    factCheck: seq<Message> -> Result<seq<Message>, string>,
    reflect: seq<Message> -> Result<seq<Message>, string>)

  /** The longest conversation after which reflection sends the article
      back to generation. */
  const MaxMessages: nat := 12

  function Fresh(): (m: Manager)
    ensures m.step == NoStep && m.state == []
  {
    Manager(NoStep, [])
  }

  function Reset(m: Manager): (r: Manager)
    ensures r == Fresh()
  {
    Manager(NoStep, [])
  }

  function Initialize(m: Manager, topic: string): (r: Manager)
    ensures r.step == Research && r.state == [Human(topic)]
  {
    Manager(Research, [Human(topic)])
  }

  /** What `run_single_step` hands back: the manager afterwards, the state
      it returns and the next-step text. */
  datatype StepOutcome = StepOutcome(manager: Manager, returned: seq<Message>, next: string)

  predicate Runs(step: Step) {
    step in {Research, Generate, FactCheck, Reflect}
  }

  /** The node of a running step, before the transition is decided. */
  function NodeResult(m: Manager, nodes: Nodes): Result<seq<Message>, string>
    requires Runs(m.step)
  {
    match m.step
    case Research => nodes.research(m.state)
    case Generate => (match nodes.generate(m.state) case Ok(msg) => Ok(m.state + [msg]) case Err(e) => Err(e))
    case FactCheck => nodes.factCheck(m.state)
    case Reflect => (match nodes.reflect(m.state) case Ok(more) => Ok(m.state + more) case Err(e) => Err(e))
  }

  /** The step that follows a running step, given the new state. */
  function Successor(step: Step, newState: seq<Message>): Step
    requires Runs(step)
  {
    match step
    case Research => Generate
    case Generate => FactCheck
    case FactCheck => HumanReview
    case Reflect => if |newState| > MaxMessages then End else Generate
  }

  /** `run_single_step()`. */
  function RunSingleStep(m: Manager, nodes: Nodes): (o: StepOutcome)
    ensures !Runs(m.step) ==> o == StepOutcome(m, m.state, "END")
    ensures Runs(m.step) && NodeResult(m, nodes).Err? ==>
              o == StepOutcome(m, m.state, "ERROR: " + NodeResult(m, nodes).error)
    ensures Runs(m.step) && NodeResult(m, nodes).Ok? ==>
              && o.manager.state == o.returned == NodeResult(m, nodes).value
              && o.next == StepName(o.manager.step)
              && o.manager.step == Successor(m.step, o.returned)
  {
    if !Runs(m.step) then StepOutcome(m, m.state, "END")
    else
      match NodeResult(m, nodes)
      case Err(e) => StepOutcome(m, m.state, "ERROR: " + e)
      case Ok(newState) =>
        var next := Successor(m.step, newState);
        StepOutcome(Manager(next, newState), newState, StepName(next))
  }

  /** The transitions on success: research, generate and fact-check lead
      one to the next and then to human review; reflection ends the run
      once the conversation is longer than twelve messages and goes back to
      generation otherwise. Generation adds exactly one message and
      reflection adds what the node returned. */
  lemma Transitions(m: Manager, nodes: Nodes)
    requires Runs(m.step) && NodeResult(m, nodes).Ok?
    ensures var o := RunSingleStep(m, nodes);
            && (m.step == Research ==> o.manager.step == Generate)
            && (m.step == Generate ==>
                  o.manager.step == FactCheck && o.manager.state == m.state + [nodes.generate(m.state).value])
            && (m.step == FactCheck ==> o.manager.step == HumanReview && o.next == "HUMAN_REVIEW")
            && (m.step == Reflect ==>
                  && o.manager.state == m.state + nodes.reflect(m.state).value
                  && (o.manager.step == End <==> |m.state| + |nodes.reflect(m.state).value| > MaxMessages)
                  && (o.manager.step != End ==> o.manager.step == Generate))
  {
  }

  /** A failing node changes nothing: the step can simply be run again. */
  lemma ErrorKeepsManager(m: Manager, nodes: Nodes)
    requires Runs(m.step) && NodeResult(m, nodes).Err?
    ensures RunSingleStep(m, nodes).manager == m
    ensures StartsWith(RunSingleStep(m, nodes).next, "ERROR: ")
  {
    var e := NodeResult(m, nodes).error;
    assert ("ERROR: " + e)[..7] == "ERROR: ";
  }

  /** Without any node failing, three steps from a fresh topic reach human
      review. */
  lemma ReachesReview(topic: string, nodes: Nodes)
    requires nodes.research([Human(topic)]).Ok?
    requires var s1 := nodes.research([Human(topic)]).value;
             nodes.generate(s1).Ok?
    requires var s1 := nodes.research([Human(topic)]).value;
             var s2 := s1 + [nodes.generate(s1).value];
             nodes.factCheck(s2).Ok?
    ensures var m0 := Initialize(Fresh(), topic);
            var m1 := RunSingleStep(m0, nodes).manager;
            var m2 := RunSingleStep(m1, nodes).manager;
            var o3 := RunSingleStep(m2, nodes);
            o3.manager.step == HumanReview && o3.next == "HUMAN_REVIEW"
  {
    var m0 := Initialize(Fresh(), topic);
    var m1 := RunSingleStep(m0, nodes).manager;
    assert m1.step == Generate;
    var m2 := RunSingleStep(m1, nodes).manager;
    assert m2.step == FactCheck;
  }

  /** `"approve" in feedback.lower()`. */
  predicate Approves(feedback: string) {
    Contains(Lower(feedback), "approve")
  }

  /** `process_human_feedback(feedback)`: the feedback is always recorded;
      it ends the run when it approves and asks for reflection otherwise. */
  function ProcessHumanFeedback(m: Manager, feedback: string): (r: (Manager, string))
    ensures r.0.state == m.state + [Human(feedback)]
    ensures r.0.step == End <==> Approves(feedback)
    ensures r.0.step == Reflect <==> !Approves(feedback)
    ensures r.1 == StepName(r.0.step)
  {
    if Approves(feedback) then (Manager(End, m.state + [Human(feedback)]), "END")
    else (Manager(Reflect, m.state + [Human(feedback)]), "reflect")
  }

  /** Approval is found anywhere and in any case: "Looks good, APPROVED!"
      approves. */
  lemma ApprovalAnywhere(before: string, after: string)
    ensures Approves(before + "APPROVE" + after)
  {
    var s := before + "APPROVE" + after;
    var k := |before|;
    assert Lower(s)[k..k + 7] == "approve";
    ContainsIff(Lower(s), "approve");
    assert OccursAt(Lower(s), "approve", k);
  }

  datatype Status = Status(step: Step, messageCount: nat, isComplete: bool, needsHumanReview: bool)

  function GetWorkflowStatus(m: Manager): (s: Status)
    ensures s.messageCount == |m.state|
    ensures s.isComplete <==> m.step == End
    ensures s.needsHumanReview <==> m.step == HumanReview
    ensures !(s.isComplete && s.needsHumanReview)
  {
    Status(m.step, |m.state|, m.step == End, m.step == HumanReview)
  }

  // ---------------------------------------------------------------------
  // Content extraction

  const FactCheckWords: seq<string> := [
    "fact-check", "accuracy", "factual claims", "misinformation",
    "corrections", "verify", "assessment", "detailed fact-check"
  ]

  const ReflectionWords: seq<string> := [
    "critique", "recommendation", "improve", "suggestions",
    "feedback", "revise", "enhance", "better"
  ]

  predicate MentionsAny(content: string, words: seq<string>) {
    exists k | 0 <= k < |words| :: Contains(Lower(content), words[k])
  }

  /** Some word of the list occurs in the lower-cased content. */
  lemma MentionsAnyIff(content: string, words: seq<string>)
    ensures MentionsAny(content, words) <==> exists k, i :: 0 <= k < |words| && OccursAt(Lower(content), words[k], i)
  {
    forall k | 0 <= k < |words| ensures Contains(Lower(content), words[k]) <==> exists i :: OccursAt(Lower(content), words[k], i) {
      ContainsIff(Lower(content), words[k]);
    }
  }

  /** A fact-check note: one of the fact-check words occurs somewhere in the
      content, in any case, even inside a longer word. */
  predicate IsFactCheckContent(content: string): (r: bool)
    ensures r <==> exists k, i :: 0 <= k < |FactCheckWords| && OccursAt(Lower(content), FactCheckWords[k], i)
  {
    MentionsAnyIff(content, FactCheckWords);
    MentionsAny(content, FactCheckWords)
  }

  /** A reflection note: one of the reflection words occurs somewhere in the
      content, in any case, even inside a longer word. */
  predicate IsReflectionContent(content: string): (r: bool)
    ensures r <==> exists k, i :: 0 <= k < |ReflectionWords| && OccursAt(Lower(content), ReflectionWords[k], i)
  {
    MentionsAnyIff(content, ReflectionWords);
    MentionsAny(content, ReflectionWords)
  }

  predicate IsResearchNote(m: Message) {
    m.System? && Contains(m.content, "Research on")
  }

  /** A generated article: a model message longer than 100 characters that
      is neither research, nor a fact check, nor a critique. */
  predicate IsArticle(m: Message) {
    && m.Ai? && |m.content| > 100
    && !Contains(m.content, "Research on")
    && !IsFactCheckContent(m.content)
    && !IsReflectionContent(m.content)
  }

  predicate IsFactCheckNote(m: Message) {
    m.Human? && IsFactCheckContent(m.content)
  }

  predicate IsReflectionNote(m: Message) {
    m.Human? && IsReflectionContent(m.content)
  }

  const NoContent: string := "No content available"

  const NotYet: string := "Content not available yet"

  function Found(state: seq<Message>, at: Option<nat>): string
    requires at.Some? ==> at.value < |state|
  {
    if at.Some? then state[at.value].content else NotYet
  }

  /** `extract_content(content_type)`: the earliest research note, or the
      latest article, fact check or critique. */
  function ExtractContent(m: Manager, contentType: string): (r: string)
    ensures m.state == [] ==> r == NoContent
  {
    if m.state == [] then NoContent
    else if contentType == "research" then Found(m.state, FirstWhere(m.state, IsResearchNote))
    else if contentType == "article" then Found(m.state, LastWhere(m.state, IsArticle))
    else if contentType == "fact_check" then Found(m.state, LastWhere(m.state, IsFactCheckNote))
    else if contentType == "reflection" then Found(m.state, LastWhere(m.state, IsReflectionNote))
    else NotYet
  }

  /** The article found is the content of the latest message that qualifies
      as one; "not available" means none qualifies. */
  lemma ArticleIsLatest(m: Manager)
    requires m.state != []
    ensures var r := ExtractContent(m, "article");
            (exists i :: 0 <= i < |m.state| && IsArticle(m.state[i])) ==>
              exists i :: 0 <= i < |m.state| && IsArticle(m.state[i]) && r == m.state[i].content
                          && forall j :: i < j < |m.state| ==> !IsArticle(m.state[j])
    ensures (forall i :: 0 <= i < |m.state| ==> !IsArticle(m.state[i])) ==> ExtractContent(m, "article") == NotYet
  {
    var at := LastWhere(m.state, IsArticle);
    if at.Some? {
      assert IsArticle(m.state[at.value]);
    }
  }

  /** Recording feedback keeps what was already extracted: the research
      note stays the earliest one, and the article stays the latest one,
      since feedback is a human message. */
  lemma FeedbackKeepsExtraction(m: Manager, feedback: string)
    requires FirstWhere(m.state, IsResearchNote).Some?
    ensures var after := ProcessHumanFeedback(m, feedback).0;
            && ExtractContent(after, "research") == ExtractContent(m, "research")
            && ExtractContent(after, "article") == ExtractContent(m, "article")
  {
    var after := ProcessHumanFeedback(m, feedback).0;
    FirstWhereAppend(m.state, [Human(feedback)], IsResearchNote);
    LastWhereAppendSkipped(m.state, [Human(feedback)], IsArticle);
    assert after.state == m.state + [Human(feedback)];
    var i := FirstWhere(m.state, IsResearchNote).value;
    assert after.state[i] == m.state[i];
    var a := LastWhere(m.state, IsArticle);
    if a.Some? {
      assert after.state[a.value] == m.state[a.value];
    }
  }
}
