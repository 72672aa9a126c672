/**
 * The texts the engine replies with. `Step` chooses a `Message`;
 * `Text` spells it out exactly as the engine writes it.
 */
module Replies {
  import opened Wrappers
  import opened Text

  /** An f-string of an `Optional[str]`: `None` prints as "None". */
  function Show(o: Option<string>): (r: string)
    ensures o.Some? ==> r == o.value
  {
    if o.Some? then o.value else "None"
  }

  datatype Message =
    | Onboarding
    | ResearchStarted(company: string)
    | LostCompany
    | ResearchDone(research: string)
    | InitialPlan(target: Option<string>, planText: string)
    | TailoredPlan(planText: string)
    | NoPlan
    | Edited(section: Option<string>, planText: string)
  {
    /** Whether the message shows a rendered plan. */
    predicate ShowsPlan() {
      InitialPlan? || TailoredPlan? || Edited?
    }

    /** The reply text, as the engine writes it. */
    function Text(): string {
      match this
      case Onboarding => OnboardingText
      case ResearchStarted(company) => ResearchStartedText(company)
      case LostCompany => LostCompanyText
      case ResearchDone(research) => research + ResearchDoneTail
      case InitialPlan(target, planText) => InitialPlanHead(target) + planText + InitialPlanTail
      case TailoredPlan(planText) => TailoredPlanHead + planText + TailoredPlanTail
      case NoPlan => NoPlanText
      case Edited(section, planText) => EditExplanation(section) + EditedHead + planText + EditedTail
    }
  }

  const OnboardingText: string :=
    "Hi! I\U{2019}m your Company Research Assistant.\n\n"
    + "Tell me which company to research, e.g. **\U{201C}Research Zeta company\U{201D}**."

  function ResearchStartedText(company: string): string {
    ResearchStartedHead + company + ResearchStartedTail
  }

  const ResearchStartedHead: string := "Great, I\U{2019}ll research **"

  const ResearchStartedTail: string :=
    "**.\n\n"
    + "I\U{2019}ll start with company overview and recent news, then move to org map, tech landscape, "
    + "opportunities, and risks.\n\n"
    + "You can also tell me if you want a specific focus (e.g. \U{201C}focus on AI initiatives\U{201D})."

  const LostCompanyText: string :=
    "I lost track of the company name \U{1F605}. Could you tell me the company again?"

  const ResearchDoneTail: string :=
    "\n\n"
    + "Based on this, I can now generate a structured account plan.\n"
    + "Type **\U{201C}generate plan\U{201D}** or tell me what to focus on "
    + "(e.g. \U{201C}focus on EMEA enterprise deals\U{201D})."

  function InitialPlanHead(target: Option<string>): string {
    "Here\U{2019}s the initial account plan for **" + Show(target) + "**:\n\n"
  }

  const InitialPlanTail: string :=
    "\n\n"
    + "You can say things like:\n"
    + "- \U{201C}Edit opportunities_for_us to focus on AI products\U{201D}\n"
    + "- \U{201C}Rewrite risks_and_red_flags to be shorter\U{201D}\n"
    + "- \U{201C}Update next_steps for an enterprise sales motion\U{201D}"

  const TailoredPlanHead: string :=
    "Got it, I\U{2019}ve tailored the plan based on your preferences.\n\n"

  const TailoredPlanTail: string :=
    "\n\nYou can now ask me to tweak specific sections."

  const NoPlanText: string :=
    "Looks like we don\U{2019}t have an account plan yet. Say **\U{201C}generate plan\U{201D}** to create one."

  /** The explanation of an edit: `f"I've updated **{section}** based on your feedback."`. */
  function EditExplanation(section: Option<string>): string {
    UpdateClaim(section) + " based on your feedback."
  }

  /** The part of the explanation that names the section. */
  function UpdateClaim(section: Option<string>): string {
    "I've updated **" + Show(section) + "**"
  }

  const EditedHead: string :=
    "\n\nHere is the updated account plan:\n\n"

  const EditedTail: string :=
    "\n\nYou can continue refining any section or ask for a quick summary."

  /** The research reply opens with the model's research text, verbatim. */
  lemma ResearchDoneOpensWithResearch(research: string)
    ensures research <= ResearchDone(research).Text()
  {
    PrefixOfAppend(research, ResearchDoneTail);
  }

  /**
   * The edit reply claims an update of the named section whatever the
   * merge did: it opens with "I've updated **<section>**", where a
   * missing section is named "None".
   */
  lemma EditedClaimsUpdate(section: Option<string>, planText: string)
    ensures UpdateClaim(section) <= Edited(section, planText).Text()
    ensures section.None? ==> UpdateClaim(section) == "I've updated **None**"
  {
    PrefixOfNested(UpdateClaim(section), " based on your feedback.", EditedHead, planText, EditedTail);
  }

  /** The research-started reply names the company it will research. */
  lemma ResearchStartedNamesCompany(company: string)
    ensures Contains(ResearchStarted(company).Text(), company)
  {
    ContainsMiddle(ResearchStartedHead, company, ResearchStartedTail);
  }

  /** Every message that shows a plan contains the rendered plan text it was given. */
  lemma PlanMessagesContainPlan(m: Message)
    requires m.ShowsPlan()
    ensures Contains(m.Text(), m.planText)
  {
    match m {
      case InitialPlan(target, planText) =>
        ContainsMiddle(InitialPlanHead(target), planText, InitialPlanTail);
      case TailoredPlan(planText) =>
        ContainsMiddle(TailoredPlanHead, planText, TailoredPlanTail);
      case Edited(section, planText) =>
        ContainsMiddle(EditExplanation(section) + EditedHead, planText, EditedTail);
    }
  }
}
