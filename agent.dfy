/**
 * The conversation engine of the company-research assistant as a pure
 * transition function: given a session's state, one user message, the
 * persona tag of the request and the answers the language model gives to
 * whichever call the turn makes, `Step` yields the new state, the reply
 * (or the fault the turn raises) and the model call the turn made.
 */
module Agent {
  import opened Wrappers
  import opened Text
  import opened AccountPlan
  import opened PlanRender
  import opened Replies

  /** The four phases of the workflow. */
  datatype Mode = Discovery | Research | Planning | Editing {
    /** The value stored in `state.mode` and sent back as `mode`. */
    function Name(): string {
      match this
      case Discovery => "discovery"
      case Research => "research"
      case Planning => "planning"
      case Editing => "editing"
    }
  }

  /**
   * The four mode strings differ, so the `state.mode == ...` tests of the
   * turn pick exactly one phase.
   */
  lemma ModeNamesDistinct(a: Mode, b: Mode)
    requires a.Name() == b.Name()
    ensures a == b
  {
  }

  /** One session: `SessionState`. */
  datatype State = State(
    mode: Mode,
    targetCompany: Option<string>,
    persona: string,
    researchNotes: seq<string>,
    accountPlan: Plan)

  /** `SessionState()` with its field defaults. */
  const DefaultState: State := State(Discovery, None, "efficient", [], [])

  /** The dict `handle_user_message` returns: reply, mode, company, account_plan. */
  datatype ChatReply = ChatReply(
    reply: Message,
    mode: Mode,
    company: Option<string>,
    accountPlan: Option<Plan>)

  /** The model call a turn makes, with what the engine passes into it. */
  datatype LlmCall =
    | ExtractNameCall(userMessage: string)
    | ResearchCall(target: string, persona: string)
    | PlanCall(company: Option<string>, notes: string, persona: string)
    | EditCall(company: Option<string>, plan: Plan, userMessage: string, persona: string)

  /**
   * What the model answers to each kind of call: the raw text of the name
   * extraction, the research reply text, the plan after `json.loads`
   * (`None` when the text does not parse) and the edit object after
   * `json.loads` (likewise). A turn makes at most one call and reads only
   * the matching answer.
   */
  datatype LlmAnswers = LlmAnswers(
    nameText: string,
    researchText: string,
    planJson: Option<Plan>,
    editJson: Option<EditAnswer>)

  /** The exception a turn raises: the model's JSON did not parse. */
  datatype Fault = UnparseableJson

  datatype Transition = Transition(
    next: State,
    reply: Result<ChatReply, Fault>,
    call: Option<LlmCall>)

  // ------------------------------------------------------ company name

  /** Longest answer still taken for a company name, in words. */
  const MaxNameWords: nat := 6

  /**
   * The post-processing of the name-extraction answer: strip it, and
   * reject it when it has more than six words.
   */
  function ExtractCompanyName(answer: string): (name: string)
    ensures name != "" <==> 1 <= WordCount(answer) <= MaxNameWords
    ensures name != "" ==> name == Strip(answer)
  {
    var stripped := Strip(answer);
    WordCountOfStrip(answer);
    NoWordsIffAllSpace(stripped);
    if WordCount(stripped) > MaxNameWords then "" else stripped
  }

  /** Running the guard on its own output changes nothing. */
  lemma ExtractCompanyNameIdempotent(answer: string)
    ensures ExtractCompanyName(ExtractCompanyName(answer)) == ExtractCompanyName(answer)
  {
    var name := ExtractCompanyName(answer);
    if name != "" {
      StripIdempotent(answer);
      WordCountOfStrip(answer);
    }
  }

  /** An answer of words separated by single spaces is kept exactly when it has at most six words. */
  lemma ExtractCompanyNameOfWords(ws: seq<string>)
    requires ws != []
    requires forall i :: 0 <= i < |ws| ==> IsWord(ws[i])
    ensures ExtractCompanyName(Join(ws, " ")) == "" <==> |ws| > MaxNameWords
  {
    WordCountOfJoin(ws);
  }

  // ----------------------------------------------------------- planning

  /** `"generate plan" in message.lower() or "account plan" in message.lower()`. */
  predicate IsPlanTrigger(message: string) {
    Contains(Lower(message), "generate plan") || Contains(Lower(message), "account plan")
  }

  /** The trigger is found anywhere in a longer message. */
  lemma PlanTriggerInContext(message: string, before: string, after: string)
    requires IsPlanTrigger(message)
    ensures IsPlanTrigger(before + message + after)
  {
    assert Lower(before + message + after) == Lower(before) + Lower(message) + Lower(after);
    if Contains(Lower(message), "generate plan") {
      ContainsInContext(Lower(message), "generate plan", Lower(before), Lower(after));
    } else {
      ContainsInContext(Lower(message), "account plan", Lower(before), Lower(after));
    }
  }

  /** The test ignores case. */
  lemma PlanTriggerIgnoresCase()
    ensures IsPlanTrigger("Generate Plan")
    ensures IsPlanTrigger("show me the ACCOUNT PLAN")
  {
    assert OccursAt(Lower("Generate Plan"), "generate plan", 0);
    assert Lower("show me the ACCOUNT PLAN") == "show me the account plan";
    assert OccursAt(Lower("show me the ACCOUNT PLAN"), "account plan", 12);
  }

  /** The notes the plan call is given: all research notes, plus the message as a focus hint unless it asked for the plan. */
  function PlanNotes(notes: seq<string>, message: string): (r: string)
    // the joined notes always come first
    ensures Join(notes, "\n\n") <= r
    // the message is added exactly when it does not ask for the plan
    ensures r == Join(notes, "\n\n") <==> IsPlanTrigger(message)
    ensures !IsPlanTrigger(message) ==> Contains(r, message)
  {
    if IsPlanTrigger(message) then Join(notes, "\n\n")
    else
      var joined := Join(notes, "\n\n");
      ContainsMiddle(joined + "\n\nUser focus: ", message, "");
      assert joined + "\n\nUser focus: " + message + "" == joined + "\n\nUser focus: " + message;
      joined + "\n\nUser focus: " + message
  }

  // --------------------------------------------------------- transition

  /** `state.target_company` is truthy. */
  predicate HasCompany(s: State) {
    Truthy(s.targetCompany)
  }

  /** `handle_user_message` for one session. */
  function Step(s: State, message: string, persona: string, llm: LlmAnswers): (t: Transition)
    // the request's persona is stored on every turn, whatever else happens
    ensures t.next.persona == persona
    // every reply reports the mode the session is left in
    ensures t.reply.Success? ==> t.reply.value.mode == t.next.mode
    // a fault leaves everything but the persona as it was
    ensures t.reply.Failure? ==> t.next == s.(persona := persona)
  {
    var cur := s.(persona := persona);
    match cur.mode
    case Discovery =>
      var name := ExtractCompanyName(llm.nameText);
      var call := Some(ExtractNameCall(message));
      if name == "" then
        Transition(cur, Success(ChatReply(Onboarding, cur.mode, None, None)), call)
      else
        var next := cur.(targetCompany := Some(name), mode := Research);
        Transition(next, Success(ChatReply(ResearchStarted(name), next.mode, Some(name), None)), call)
    case Research =>
      if !HasCompany(cur) then
        var next := cur.(mode := Discovery);
        Transition(next, Success(ChatReply(LostCompany, next.mode, None, None)), None)
      else
        var next := cur.(researchNotes := cur.researchNotes + [llm.researchText], mode := Planning);
        Transition(next,
          Success(ChatReply(ResearchDone(llm.researchText), next.mode, next.targetCompany, None)),
          Some(ResearchCall(cur.targetCompany.value, cur.persona)))
    case Planning =>
      var call := Some(PlanCall(cur.targetCompany, PlanNotes(cur.researchNotes, message), cur.persona));
      (match llm.planJson
       case None => Transition(cur, Failure(UnparseableJson), call)
       case Some(plan) =>
         var next := cur.(accountPlan := plan, mode := Editing);
         var text :=
           if IsPlanTrigger(message) then InitialPlan(next.targetCompany, RenderedPlan(plan))
           else TailoredPlan(RenderedPlan(plan));
         Transition(next, Success(ChatReply(text, next.mode, next.targetCompany, Some(next.accountPlan))), call))
    case Editing =>
      if cur.accountPlan == [] then
        var next := cur.(mode := Planning);
        Transition(next, Success(ChatReply(NoPlan, next.mode, next.targetCompany, None)), None)
      else
        var call := Some(EditCall(cur.targetCompany, cur.accountPlan, message, cur.persona));
        (match llm.editJson
         case None => Transition(cur, Failure(UnparseableJson), call)
         case Some(answer) =>
           var next := cur.(accountPlan := MergeEdit(cur.accountPlan, answer));
           var text := Edited(answer.sectionKey, RenderedPlan(next.accountPlan));
           Transition(next, Success(ChatReply(text, next.mode, next.targetCompany, Some(next.accountPlan))), call))
  }

  /** Discovery: one name call; the session stays put unless the model gave a name. */
  lemma StepInDiscovery(s: State, message: string, persona: string, llm: LlmAnswers)
    requires s.mode == Discovery
    ensures var t := Step(s, message, persona, llm);
      var name := ExtractCompanyName(llm.nameText);
      && t.call == Some(ExtractNameCall(message))
      && t.reply.Success? && t.reply.value.accountPlan == None
      && (name == "" ==>
            && t.next == s.(persona := persona)
            && t.reply.value.reply == Onboarding && t.reply.value.company == None)
      && (name != "" ==>
            && t.next == s.(persona := persona, mode := Research, targetCompany := Some(name))
            && t.reply.value.reply == ResearchStarted(name) && t.reply.value.company == Some(name))
  {
  }

  /** Research without a company: back to discovery, with no model call. */
  lemma StepLosesCompany(s: State, message: string, persona: string, llm: LlmAnswers)
    requires s.mode == Research && !HasCompany(s)
    ensures var t := Step(s, message, persona, llm);
      && t.call == None
      && t.next == s.(persona := persona, mode := Discovery)
      && t.reply == Success(ChatReply(LostCompany, Discovery, None, None))
  {
  }

  /** Research: one research call, whose reply is appended verbatim as one note; the message is not used. */
  lemma StepInResearch(s: State, message: string, persona: string, llm: LlmAnswers)
    requires s.mode == Research && HasCompany(s)
    ensures var t := Step(s, message, persona, llm);
      && t.call == Some(ResearchCall(s.targetCompany.value, persona))
      && t.next == s.(persona := persona, mode := Planning,
                      researchNotes := s.researchNotes + [llm.researchText])
      && t.reply == Success(ChatReply(ResearchDone(llm.researchText), Planning, s.targetCompany, None))
  {
  }

  /**
   * Planning: one plan call on the joined notes; a plan that parses
   * replaces the old one wholesale, one that does not raises.
   */
  lemma StepInPlanning(s: State, message: string, persona: string, llm: LlmAnswers)
    requires s.mode == Planning
    ensures var t := Step(s, message, persona, llm);
      && t.call == Some(PlanCall(s.targetCompany, PlanNotes(s.researchNotes, message), persona))
      && (t.reply.Failure? <==> llm.planJson.None?)
      && (llm.planJson.Some? ==>
            && t.next == s.(persona := persona, mode := Editing, accountPlan := llm.planJson.value)
            && t.reply.value.company == s.targetCompany
            && t.reply.value.accountPlan == Some(llm.planJson.value)
            && t.reply.value.reply ==
                 if IsPlanTrigger(message) then InitialPlan(s.targetCompany, RenderedPlan(llm.planJson.value))
                 else TailoredPlan(RenderedPlan(llm.planJson.value)))
  {
  }

  /** Editing without a plan: back to planning, with no model call. */
  lemma StepHasNoPlan(s: State, message: string, persona: string, llm: LlmAnswers)
    requires s.mode == Editing && s.accountPlan == []
    ensures var t := Step(s, message, persona, llm);
      && t.call == None
      && t.next == s.(persona := persona, mode := Planning)
      && t.reply == Success(ChatReply(NoPlan, Planning, s.targetCompany, None))
  {
  }

  /**
   * Editing: one edit call; a parsed answer is merged, the mode stays, and
   * the reply claims an update either way.
   */
  lemma StepInEditing(s: State, message: string, persona: string, llm: LlmAnswers)
    requires s.mode == Editing && s.accountPlan != []
    ensures var t := Step(s, message, persona, llm);
      && t.call == Some(EditCall(s.targetCompany, s.accountPlan, message, persona))
      && (t.reply.Failure? <==> llm.editJson.None?)
      && (llm.editJson.Some? ==>
            && t.next == s.(persona := persona,
                            accountPlan := MergeEdit(s.accountPlan, llm.editJson.value))
            && t.reply.value.company == s.targetCompany
            && t.reply.value.accountPlan == Some(t.next.accountPlan)
            && t.reply.value.reply ==
                 Edited(llm.editJson.value.sectionKey, RenderedPlan(t.next.accountPlan)))
  {
  }

  /** Every reply that carries a plan shows that plan, rendered. */
  lemma RepliesShowRenderedPlan(s: State, message: string, persona: string, llm: LlmAnswers)
    requires Step(s, message, persona, llm).reply.Success?
    requires Step(s, message, persona, llm).reply.value.accountPlan.Some?
    ensures var r := Step(s, message, persona, llm).reply.value;
      Contains(r.reply.Text(), RenderedPlan(r.accountPlan.value))
  {
    var r := Step(s, message, persona, llm).reply.value;
    PlanMessagesContainPlan(r.reply);
  }

  // -------------------------------------------------- runs of many turns

  /** One incoming message with the model's answers for that turn. */
  datatype Turn = Turn(message: string, persona: string, llm: LlmAnswers)

  /** The session after a series of turns. */
  function Run(s: State, turns: seq<Turn>): State
    decreases |turns|
  {
    if turns == [] then s
    else Run(Step(s, turns[0].message, turns[0].persona, turns[0].llm).next, turns[1..])
  }

  /** Outside discovery, the session always knows its company. */
  predicate KnowsCompany(s: State) {
    s.mode != Discovery ==> HasCompany(s)
  }

  lemma StepKeepsKnowsCompany(s: State, message: string, persona: string, llm: LlmAnswers)
    requires KnowsCompany(s)
    ensures KnowsCompany(Step(s, message, persona, llm).next)
  {
  }

  lemma {:induction false} RunKeepsKnowsCompany(s: State, turns: seq<Turn>)
    requires KnowsCompany(s)
    ensures KnowsCompany(Run(s, turns))
    decreases |turns|
  {
    if turns != [] {
      StepKeepsKnowsCompany(s, turns[0].message, turns[0].persona, turns[0].llm);
      RunKeepsKnowsCompany(Step(s, turns[0].message, turns[0].persona, turns[0].llm).next, turns[1..]);
    }
  }

  /**
   * The lost-company guard never fires on a session that started fresh:
   * in research mode the next turn always makes the research call.
   */
  lemma LostCompanyGuardUnreachable(turns: seq<Turn>, message: string, persona: string, llm: LlmAnswers)
    ensures var s := Run(DefaultState, turns);
      s.mode == Research ==> Step(s, message, persona, llm).call.Some?
  {
    RunKeepsKnowsCompany(DefaultState, turns);
  }

  /**
   * The plan keeps to the seven standard keys only as long as every plan
   * the model returns, and every edit key it names, does.
   */
  lemma StepKeepsStandardKeys(s: State, message: string, persona: string, llm: LlmAnswers)
    requires UsesStandardKeys(s.accountPlan)
    requires llm.planJson.Some? ==> UsesStandardKeys(llm.planJson.value)
    requires llm.editJson.Some? && llm.editJson.value.sectionKey.Some? ==>
      llm.editJson.value.sectionKey.value in StandardKeys
    ensures UsesStandardKeys(Step(s, message, persona, llm).next.accountPlan)
  {
    if s.mode == Editing && s.accountPlan != [] && llm.editJson.Some? {
      MergeEditKeepsStandardKeys(s.accountPlan, llm.editJson.value);
    }
  }

  /** A fresh session told "Research Acme Corp" moves to research on Acme Corp. */
  lemma FreshSessionStartsResearch(llm: LlmAnswers)
    requires llm.nameText == "Acme Corp"
    ensures var t := Step(DefaultState, "Research Acme Corp", "efficient", llm);
      && t.next.mode == Research
      && t.next.targetCompany == Some("Acme Corp")
      && t.reply == Success(ChatReply(ResearchStarted("Acme Corp"), Research, Some("Acme Corp"), None))
  {
    AcmeCorpIsAName();
  }

  lemma AcmeCorpIsAName()
    ensures ExtractCompanyName("Acme Corp") == "Acme Corp"
  {
    assert Join(["Acme", "Corp"], " ") == "Acme Corp";
    WordCountOfJoin(["Acme", "Corp"]);
    StripOfTrimmed("Acme Corp");
  }

  /**
   * A plan the model returns empty is stored, and the next turn takes the
   * no-plan guard back to planning: that guard, unlike the lost-company
   * one, is reachable.
   */
  lemma EmptyPlanLeadsBackToPlanning(s: State, message: string, persona: string, llm: LlmAnswers)
    requires s.mode == Planning && llm.planJson == Some([])
    ensures var next := Step(s, message, persona, llm).next;
      && next.mode == Editing
      && Step(next, message, persona, llm).next.mode == Planning
      && Step(next, message, persona, llm).call == None
  {
  }
}
