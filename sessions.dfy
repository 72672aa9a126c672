/**
 * The engine as the program runs it: a process-wide store mapping each
 * session id to a mutable session object, and the turn handler that
 * updates that object's fields in place. Each method is proved to do
 * exactly what `Agent.Step` says.
 */
module Sessions {
  import opened Wrappers
  import opened Text
  import opened AccountPlan
  import opened PlanRender
  import opened Replies
  import opened Agent

  /** `SessionState`: one session's fields, updated in place by each turn. */
  class SessionState {
    var mode: Mode
    var targetCompany: Option<string>
    var persona: string
    var researchNotes: seq<string>
    var accountPlan: Plan

    /** The fields as one value. */
    function Snapshot(): State
      reads this
    {
      State(mode, targetCompany, persona, researchNotes, accountPlan)
    }

    /** `SessionState()`: the field defaults. */
    constructor ()
      ensures Snapshot() == DefaultState
    {
      mode := Discovery;
      targetCompany := None;
      persona := "efficient";
      researchNotes := [];
      accountPlan := [];
    }

    /** The body of `handle_user_message` once the session is looked up. */
    method HandleMessage(message: string, requestPersona: string, llm: LlmAnswers)
      returns (reply: Result<ChatReply, Fault>, call: Option<LlmCall>)
      modifies this
      ensures var t := Step(old(Snapshot()), message, requestPersona, llm);
        Snapshot() == t.next && reply == t.reply && call == t.call
    {
      persona := requestPersona;

      if mode == Discovery {
        call := Some(ExtractNameCall(message));
        var company := ExtractCompanyName(llm.nameText);
        if company == "" {
          reply := Success(ChatReply(Onboarding, mode, None, None));
          return;
        }
        targetCompany := Some(company);
        mode := Research;
        reply := Success(ChatReply(ResearchStarted(company), mode, Some(company), None));
        return;
      }

      if mode == Research {
        if !Truthy(targetCompany) {
          mode := Discovery;
          call := None;
          reply := Success(ChatReply(LostCompany, mode, None, None));
          return;
        }
        call := Some(ResearchCall(targetCompany.value, persona));
        var researchReply := llm.researchText;
        researchNotes := researchNotes + [researchReply];
        mode := Planning;
        reply := Success(ChatReply(ResearchDone(researchReply), mode, targetCompany, None));
        return;
      }

      if mode == Planning {
        var allNotes := Join(researchNotes, "\n\n");
        if !IsPlanTrigger(message) {
          allNotes := allNotes + "\n\nUser focus: " + message;
        }
        call := Some(PlanCall(targetCompany, allNotes, persona));
        if llm.planJson.None? {
          reply := Failure(UnparseableJson);
          return;
        }
        var plan := llm.planJson.value;
        accountPlan := plan;
        mode := Editing;
        var planText := RenderPlan(plan);
        var text := if IsPlanTrigger(message) then InitialPlan(targetCompany, planText)
                    else TailoredPlan(planText);
        reply := Success(ChatReply(text, mode, targetCompany, Some(accountPlan)));
        return;
      }

      // mode == Editing
      if accountPlan == [] {
        mode := Planning;
        call := None;
        reply := Success(ChatReply(NoPlan, mode, targetCompany, None));
        return;
      }
      call := Some(EditCall(targetCompany, accountPlan, message, persona));
      if llm.editJson.None? {
        reply := Failure(UnparseableJson);
        return;
      }
      var section := llm.editJson.value.sectionKey;
      var updatedText := llm.editJson.value.updatedText;
      if Truthy(section) && Truthy(updatedText) {
        accountPlan := Put(accountPlan, section.value, updatedText.value);
      }
      var planText := RenderPlan(accountPlan);
      reply := Success(ChatReply(Edited(section, planText), mode, targetCompany, Some(accountPlan)));
    }
  }

  /** `SESSION_STORE`: session id to session object, never shrinking. */
  class SessionStore {
    var sessions: map<string, SessionState>

    /** No two ids share a session object. */
    ghost predicate Valid()
      reads this
    {
      forall a, b :: a in sessions && b in sessions && a != b ==> sessions[a] != sessions[b]
    }

    constructor ()
      ensures Valid() && sessions == map[]
    {
      sessions := map[];
    }

    /**
     * `get_session_state`: an id seen before gets its own session back;
     * a new id gets a fresh session with the defaults. No other entry
     * changes.
     */
    method GetSessionState(sessionId: string) returns (state: SessionState)
      requires Valid()
      modifies this
      ensures Valid()
      ensures sessionId in old(sessions) ==>
        sessions == old(sessions) && state == sessions[sessionId]
      ensures sessionId !in old(sessions) ==>
        && fresh(state)
        && sessions == old(sessions)[sessionId := state]
        && state.Snapshot() == DefaultState
    {
      if sessionId !in sessions {
        var created := new SessionState();
        sessions := sessions[sessionId := created];
      }
      state := sessions[sessionId];
    }

    /**
     * `handle_user_message`: look the session up (creating it), then take
     * one turn on it. Only that session's object changes, and as no two
     * ids share an object, no other session changes.
     */
    method HandleUserMessage(sessionId: string, message: string, persona: string, llm: LlmAnswers)
      returns (reply: Result<ChatReply, Fault>, call: Option<LlmCall>)
      requires Valid()
      modifies this, if sessionId in sessions then {sessions[sessionId]} else {}
      ensures Valid()
      ensures sessionId in sessions && sessions == old(sessions)[sessionId := sessions[sessionId]]
      ensures sessionId in old(sessions) ==> sessions[sessionId] == old(sessions)[sessionId]
      ensures sessionId !in old(sessions) ==> fresh(sessions[sessionId])
      ensures
        var before := if sessionId in old(sessions) then old(sessions[sessionId].Snapshot()) else DefaultState;
        var t := Step(before, message, persona, llm);
        sessions[sessionId].Snapshot() == t.next && reply == t.reply && call == t.call
    {
      var state := GetSessionState(sessionId);
      reply, call := state.HandleMessage(message, persona, llm);
    }
  }
}
