# Company research assistant: conversation engine

This project models the conversation engine of the company research
assistant (`backend/agent.py`). The engine keeps one session record per
session id: mode, target company, persona, research notes and account plan.
On each user message it advances the session through four phases:

- **discovery**: ask the language model for a company name;
- **research**: have the model research that company and keep its reply as a note;
- **planning**: have the model produce an account plan, a JSON object from section key to text;
- **editing**: have the model rewrite one section.

Two guards send the session back one phase when the state it needs is
missing. Each reply that carries a plan shows it rendered: one
`### Title` block per section, joined by blank lines.

The language model is not modelled. Each turn takes the model's answers as
input (`Agent.LlmAnswers`):

- the raw name text;
- the research text;
- the plan after `json.loads`, or `None` when it does not parse;
- the edit object after `json.loads`, or `None` when it does not parse.

Each turn also reports which model call it made and with which arguments.

Modules:

- `Wrappers`: `Option` and `Result`.
- `Text`: the Python string operations the engine uses. These are
  `strip`, `split` (word count), `join`, `lower`, `title`, `replace` and `in`.
- `AccountPlan`: the plan as an insertion-ordered dict, stored as a sequence
  of sections with distinct keys. It has `plan[key] = text` (`Put`) and the
  merge step of the plan edit (`MergeEdit`).
- `PlanRender`: the key humaniser and the rendering loop.
- `Replies`: the reply messages and their exact texts.
- `Agent`: the whole turn as one pure transition function `Step`, with lemmas
  about single turns and about runs of turns.
- `Sessions`: the program's in-place form.
  - The class `SessionState` has mutable fields. Its `HandleMessage` is proved
    to do exactly what `Step` says.
  - The class `SessionStore` maps ids to session objects. It provides
    `get_session_state` and `handle_user_message`.

Two promises of the engine's design are not kept by its code, and the
model follows the code in both.

- The plan prompt (agent.py:96-103) and the edit prompt (agent.py:129-133)
  ask the model for the seven standard section keys. The code never checks
  the keys it gets back, neither in a generated plan (agent.py:117) nor in
  an edit (agent.py:153-154).
  `AccountPlan.MergeEditAddsForeignKey` shows an edit adding an eighth key.
  `Agent.StepKeepsStandardKeys` states the condition under which the seven
  keys are kept.
- A turn that fails should leave the session as it was. But agent.py:161
  stores the request's persona before the `json.loads` of agent.py:117 or
  agent.py:149 can raise, so a failed turn has already changed the persona.
  `Agent.Step`'s fault clause states exactly that: a fault changes the
  persona and nothing else.

## Model

| member | source | states |
|---|---|---|
| Sessions.SessionState.constructor | eightfold-company-assistant/backend/agent.py:25-30 | A new session is in discovery, with no company, persona "efficient", no notes and an empty plan. |
| Sessions.SessionStore.constructor | eightfold-company-assistant/backend/agent.py:12 | The store starts empty, and its invariant (no two ids share a session object) holds. |
| Sessions.SessionStore.GetSessionState | eightfold-company-assistant/backend/agent.py:32-35 | An id already present returns its own session object and the store does not change. A new id adds exactly one fresh session with the defaults. |
| Sessions.SessionStore.HandleUserMessage | eightfold-company-assistant/backend/agent.py:159-311 | Only the addressed session object may change, and the store gains at most the given id. An existing id keeps its object; a new one gets a fresh object. That session ends in `Step`'s next state, and the reply and model call are `Step`'s. Since the store's invariant gives each id its own object, no other session changes. |
| Sessions.SessionState.HandleMessage | eightfold-company-assistant/backend/agent.py:161-311 | The field-by-field updates of one turn leave the session in exactly the state `Step` specifies. The reply and model call are the ones `Step` specifies. |
| Agent.Step | eightfold-company-assistant/backend/agent.py:159-311 | On every turn the request's persona is stored and the reply's `mode` is the mode the session is left in. A JSON fault changes nothing but the persona. |
| Agent.StepInDiscovery | eightfold-company-assistant/backend/agent.py:163-189 | The turn makes one name call with the message. An empty name leaves the session as it was, with company `None` and the onboarding reply. Otherwise the company is set, the mode becomes research, and the reply names the company. No plan is returned. |
| Agent.StepLosesCompany | eightfold-company-assistant/backend/agent.py:191-199 | In research mode without a company, the mode goes back to discovery with no model call, the notes unchanged and the lost-company reply. |
| Agent.StepInResearch | eightfold-company-assistant/backend/agent.py:200-218 | In research mode the turn makes one research call on the company and persona. Exactly one note, the research text verbatim, is appended, and the mode becomes planning. The message is not used. |
| Agent.StepInPlanning | eightfold-company-assistant/backend/agent.py:220-275 | The turn makes one plan call on the notes joined by blank lines, plus "User focus: " and the message unless the message triggers. The turn faults exactly when the plan does not parse. Otherwise the plan replaces the old one wholesale, the mode becomes editing, and the reply shows the rendered plan. The reply is the initial-plan one on a trigger and the tailored one otherwise. |
| Agent.StepHasNoPlan | eightfold-company-assistant/backend/agent.py:277-285 | In editing mode with an empty plan, the mode goes back to planning with no model call and the plan stays empty. |
| Agent.StepInEditing | eightfold-company-assistant/backend/agent.py:287-311 | The turn makes one edit call on the company, plan, message and persona. It faults exactly when the answer does not parse. Otherwise the answer is merged, the mode stays editing, and the reply names the answer's section and shows the merged plan rendered. |
| Agent.ExtractCompanyName | eightfold-company-assistant/backend/agent.py:62-65 | The name is non-empty exactly when the answer has 1 to 6 whitespace-separated words. A non-empty name is the answer stripped. |
| Agent.ExtractCompanyNameIdempotent | eightfold-company-assistant/backend/agent.py:62-65 | Applying the guard to its own result changes nothing. |
| Agent.ExtractCompanyNameOfWords | eightfold-company-assistant/backend/agent.py:63-64 | An answer of n single-spaced words is rejected exactly when n > 6. |
| Agent.PlanTriggerInContext | eightfold-company-assistant/backend/agent.py:221 | The trigger test is a substring test, so it still holds with any text around the message. |
| Agent.PlanTriggerIgnoresCase | eightfold-company-assistant/backend/agent.py:221 | The trigger test ignores case: "Generate Plan" and "ACCOUNT PLAN" both trigger. |
| Agent.PlanNotes | eightfold-company-assistant/backend/agent.py:222 | The notes the plan call gets always open with the research notes joined by blank lines. They are exactly those joined notes when the message triggers. Otherwise they also contain the message, after "User focus: ". The non-trigger case is agent.py:251. |
| Agent.ModeNamesDistinct | eightfold-company-assistant/backend/agent.py:163-277 | The four mode strings "discovery", "research", "planning" and "editing" are distinct, so the mode tests pick exactly one phase. |
| Agent.RepliesShowRenderedPlan | eightfold-company-assistant/backend/agent.py:231-248 | Every reply that returns a plan contains that plan's rendered text. |
| Agent.StepKeepsKnowsCompany | eightfold-company-assistant/backend/agent.py:163-206 | A turn keeps this invariant: outside discovery, the session has a non-empty company. |
| Agent.RunKeepsKnowsCompany | eightfold-company-assistant/backend/agent.py:163-218 | Any run of turns keeps that invariant. |
| Agent.LostCompanyGuardUnreachable | eightfold-company-assistant/backend/agent.py:191-199 | On a session started from the defaults, the research-mode turn always makes the research call, so the lost-company guard never fires. |
| Agent.EmptyPlanLeadsBackToPlanning | eightfold-company-assistant/backend/agent.py:277-285 | An empty plan from the model is stored and the mode becomes editing. The next turn takes the no-plan guard back to planning with no model call, so that guard is reachable. |
| Agent.StepKeepsStandardKeys | eightfold-company-assistant/backend/agent.py:150-154 | The plan stays within the seven standard keys when the model's plans and edit keys do. |
| Agent.AcmeCorpIsAName | eightfold-company-assistant/backend/agent.py:62-65 | The answer "Acme Corp" passes the guard unchanged. |
| Agent.FreshSessionStartsResearch | eightfold-company-assistant/backend/agent.py:163-189 | A fresh session whose name answer is "Acme Corp" moves to research on "Acme Corp" with the research-started reply. |
| AccountPlan.Put | eightfold-company-assistant/backend/agent.py:154 | Afterwards the dict content is the old content with that key set to the text. The key order is unchanged for an existing key; a new key is appended at the end. |
| AccountPlan.PutKeepsOtherEntries | eightfold-company-assistant/backend/agent.py:154 | Every entry for another key stays at the same position with the same text. |
| AccountPlan.MergeEdit | eightfold-company-assistant/backend/agent.py:150-154 | The plan is unchanged unless both the section key and the text are truthy. If both are, that key is set to the text, and an existing key keeps its position. |
| AccountPlan.MergeEditKeepsStandardKeys | eightfold-company-assistant/backend/agent.py:153-154 | An edit that names a standard key, or no key, keeps a standard-keyed plan standard-keyed. |
| AccountPlan.MergeEditAddsForeignKey | eightfold-company-assistant/backend/agent.py:153-154 | The key is not checked: an edit naming "pricing" adds a key outside the seven. |
| PlanRender.Humanize | eightfold-company-assistant/backend/agent.py:233 | The title has as many characters as the key. |
| PlanRender.HumanizeHasNoUnderscore | eightfold-company-assistant/backend/agent.py:233 | No underscore is left in a humanised key. |
| PlanRender.HumanizeIdempotent | eightfold-company-assistant/backend/agent.py:233 | Humanising a humanised key changes nothing. |
| PlanRender.HumanizeNextSteps | eightfold-company-assistant/backend/agent.py:233 | "next_steps" becomes "Next Steps". |
| PlanRender.RenderPlan | eightfold-company-assistant/backend/agent.py:231-234 | The loop gives one block per section in iteration order. Each block is "### " + humanised key + "\n" + text, and the blocks are joined by "\n\n". |
| PlanRender.RenderedEmptyPlan | eightfold-company-assistant/backend/agent.py:231-234 | An empty plan renders as the empty text. |
| PlanRender.RenderedPlanAppend | eightfold-company-assistant/backend/agent.py:231-234 | A section appended to a non-empty plan adds one blank line and its block at the end of the text. |
| PlanRender.RenderedPlanStartsWithFirstBlock | eightfold-company-assistant/backend/agent.py:231-234 | A non-empty plan's text starts with its first section's block. |
| PlanRender.PutKeepsOtherBlocks | eightfold-company-assistant/backend/agent.py:295-298 | After an edit, every block of another section is the same and at the same position. |
| Replies.Show | eightfold-company-assistant/backend/agent.py:237 | Formatting a present optional string gives the string itself. |
| Replies.ResearchStartedNamesCompany | eightfold-company-assistant/backend/agent.py:178-183 | The research-started reply contains the company name it was given. |
| Replies.ResearchDoneOpensWithResearch | eightfold-company-assistant/backend/agent.py:207-212 | The research reply starts with the model's research text, verbatim. |
| Replies.EditedClaimsUpdate | eightfold-company-assistant/backend/agent.py:156 | The edit reply starts with "I've updated **section**" whether or not the merge changed anything. A missing key is shown as "None". |
| Replies.PlanMessagesContainPlan | eightfold-company-assistant/backend/agent.py:236-243 | The initial-plan, tailored-plan and edited replies each contain the plan text they were given. |
| Text.WordCountOfStrip | eightfold-company-assistant/backend/agent.py:62-63 | Stripping does not change the number of whitespace-separated words. |
| Text.StripIdempotent | eightfold-company-assistant/backend/agent.py:62 | Stripping a stripped string changes nothing. |
| Text.NoWordsIffAllSpace | eightfold-company-assistant/backend/agent.py:63 | A string has no words exactly when it is all whitespace. This is why an empty name passes the six-word guard unchanged. |
| Text.WordCountOfJoin | eightfold-company-assistant/backend/agent.py:63 | Words joined by single spaces count as that many words. |

Two members carry no contract of their own and are covered by the lemmas
above:

- `Replies.Message.Text` (replies.dfy) spells out every reply literal of
  agent.py:166-311, character for character. These are the onboarding text
  (agent.py:167-169), the research-started text (agent.py:178-183), the
  lost-company text (agent.py:195), the research-done tail
  (agent.py:208-211), both plan replies (agent.py:236-243 and 265-269), the
  no-plan text (agent.py:281) and the edited reply (agent.py:300-305).
- `Agent.IsPlanTrigger` (agent.dfy) is the case-insensitive substring test
  of agent.py:221. `Agent.PlanTriggerInContext` and
  `Agent.PlanTriggerIgnoresCase` state its properties.

## Left out

- The model calls (`call_llm` and the OpenAI client, agent.py:10 and 37-55) are network I/O. Their answers are inputs to each turn. A failing call raises an exception that is not modelled.
- The prompt texts (agent.py:58-61, 68-87, 93-115 and 126-147) are not modelled. The model records only the arguments each call is given: company, notes, persona, plan and message.
- `json.loads` and `json.dumps` are not modelled.
  - A parse result is either a plan (a JSON object of strings) or `None` for text that does not parse.
  - An edit answer is the two fields after `.get`, where `None` stands for a missing key or null.
  - JSON values that are not objects or not strings are not modelled.
- `PlanRender.Humanize`: `str.title` is modelled for ASCII letters only. Other characters are left as they are, and non-ASCII case mapping is not modelled.
- `Agent.IsPlanTrigger`: `str.lower` is modelled for ASCII letters only.
- In the source, `edit_account_plan` changes the plan dict in place, and the session and the returned record share that dict. The model reassigns the plan field with a new value and returns a value, so aliasing between the session and the returned plan is not captured.
- The fallback reply (agent.py:313-318) cannot be reached: the mode is one of four values here, as in the code, which only ever stores those four.
- The per-process store has no locking. Concurrent requests are not modelled.
- The annotation at agent.py:12 names `SessionState` before it is defined. That is a load-time defect, not engine behaviour.
- `backend/app.py` (HTTP routing, CORS, health check and the persona default) is not part of this model. The same goes for `backend/models.py` (schema declarations) and `frontend/app.js` (user interface).
