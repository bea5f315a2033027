# Lahijan: the agent, the docs compiler and the plugin loops, in Dafny

This project models the parts of Lahijan whose correctness is not visible from reading
one function, and proves what they promise.

* **The AI agent** (`internal/app/lahijan/agent`). A turn admits a prompt under the
  tenant's policy, lets the model-backed harness run up to six rounds, consumes the
  events it streams, keeps a row for every tool call, parks destructive calls and runs
  them only on an approved confirmation. A tool executor in between checks permissions
  and writes the audit trail.
* **The docs compiler and search** (`website`). Escaping and highlighting, callouts, tab
  groups, slugs and heading ids, and the client-side search.
* **The plugin side** (`sdk-go/network`, `examples/plugins/autoscaler-stub`). The buffer
  negotiation of outbound HTTP, and the decimal counter kept in key-value storage.

## How it is modelled

The state of the agent is one value, `World`: conversations, messages, policy, provider
rows, tool-call rows, the log of status writes, the log of tool executions, the audit
rows and their outcomes, the meter's charges, the events handed to the client, a clock
and a tick. Every operation on the outside (a database call, a model request, a tool
run, an emit) takes one tick, and an environment `Env` says for every tick how that
operation ends. A theorem for every `Env` is therefore a theorem for every pattern of
failures, of model replies and of elapsed times.

`AgentWorld.Backend` holds this state in fields that its methods update;
`AgentService.Service` and `LlmHarness.Harness` are classes over it whose methods follow
the source statement by statement. Each method is tied to a function of the old world
(`View() == F(old(View()))`), and the theorems are about those functions and about
`AgentRuns.Run`, which applies any sequence of turns, confirmations, policy changes,
deletions and provider changes. In the world the tool executor may write any audit rows of
its own, with any outcomes, in every call; `EnforcingExecutor` is modelled as a trace of
checks, audit rows, runs and outcomes, and `AgentWiring` shows that it is such an
executor. `ConfirmRace` takes a confirmation apart into its steps and interleaves any
number of them.

The in-place code elsewhere keeps its form: `Callouts.MarkCallouts` and
`Headings.SetHeadingIds` update an array of tokens, `SdkNetwork.Host.HttpRequest` writes
into the caller's buffers, `Autoscaler.Itoa` fills a fixed buffer backwards.

Regular expressions, Unicode case folding, whitespace classes and collation are
parameters. Where a result needs a law of one of them (lower-casing leaves `a-z0-9-`
alone, the collation is a total preorder, JSON decoding undoes encoding), the law is a
predicate that the result requires.

## Where the code differs from what it says

* `internal/app/lahijan/agent/harness.go:42-44` says that the history excludes the prompt
  of the turn; the service stores the prompt before it loads the history, so it is there
  (`AgentTurns.PromptIsInHistory`) and the model is sent it twice unless it is empty
  (`AgentTurns.PromptIsSentTwiceIff`).
* A tool denied by policy can be run all the same, in two ways and no other
  (`AgentDeniedRuns.DeniedRunsAreLate`). In a turn, because the denial comes when the
  service consumes the event, after the harness ran the call: possible for a model exactly
  if the harness has an executor and some denied tool is read-only
  (`AgentDenied.DeniedToolCanRunIff`). And by an approval, because no confirmation consults
  the policy: exactly if it could run the row's tool at all
  (`AgentDeniedRuns.DecideRunsDeniedIff`), so that denying a tool comes too late for the
  calls that are pending (`AgentDeniedRuns.DenyingIsTooLate`).
* The comment on the spending cap (`internal/app/lahijan/agent/service.go:507-510`) says that
  a user with a negative balance cannot run up charges even without a cap; without a cap no
  balance refuses a turn (`AgentAdmission.SpendIsExact`).
* A read-only call whose recorded result is empty is run again by the service
  (`AgentTurns.EmptyResultRunsTwice`; `AgentTurns.TurnRunsUnanswered` says exactly which),
  so running once needs non-empty results.
* The result of a confirmed call is meant to be surfaced in the conversation
  (`internal/app/lahijan/agent/service.go:644`), but its note is stored under the message
  id where a conversation id is expected. It reaches no conversation, in no run
  (`AgentConfirmed.ConfirmedResultsAreInNoConversation`); and where the database insists on
  an existing conversation, every approval of a pending row runs the tool and then reports
  a failure (`AgentConfirmed.ApprovalsReportFailure`).
* Confirmations are not atomic. `ConfirmRace` shows two approvals running a tool twice
  and a rejected row whose tool ran, and when exactly each happens
  (`ConfirmRace.AtMostOnceIffOneApproves`, `ConfirmRace.RejectedRowRanIff`).
* Deleting a conversation hands its prompts' share of the rate limit back: whatever the
  cap, a run can admit any number of prompts at one time (`AgentQuota.DeletionAdmitsAny`).
  An admitted prompt exceeds the cap exactly if the stored and the deleted prompts of its
  window made up the cap before (`AgentQuota.AdmissionExceedsIff`).
* If both status writes of an approved confirmation fail, the row stays pending although
  the tool ran (`AgentRuns.StillPendingIffWritesFailed`).
* Heading ids can collide ("Foo", "Foo", "Foo 1": `Headings.FooFooFooOneCollides`);
  `Headings.HeadingIdsDistinctIff` says exactly when.
* The comments call 8 KiB and 1 MiB the limits of a response, but the SDK's buffers of
  those sizes also hold the 4-byte prefix: a body that the host had to cut is never
  delivered (`SdkNetwork.CutBodiesAreNotDelivered`).
* If a counter reset is refused, the event behind it ticks again and counts four;
  `Autoscaler.RefusedResetOvercounts` says exactly when ticks count other than three.

## Files

| file | content |
|---|---|
| `wrappers.dfy`, `sequences.dfy`, `agent_types.dfy`, `agent_world.dfy` | shared values, the state and the tables |
| `tool_call_stream.dfy`, `llm_harness.dfy`, `llm_channel.dfy`, `llm_results.dfy` | one model request, the round loop, what goes over the channel, what the model is told |
| `agent_service.dfy` | the service: functions and the class that implements them |
| `agent_runs.dfy`, `agent_lifecycle.dfy`, `agent_calls.dfy`, `agent_turns.dfy`, `agent_rate_limit.dfy`, `agent_quota.dfy` | theorems over turns and runs |
| `agent_admission.dfy`, `agent_delivery.dfy`, `agent_record.dfy` | who may start a turn and with which model, its way to the harness, what the tables and the audit log hold afterwards |
| `agent_denied.dfy`, `agent_denied_runs.dfy`, `agent_confirmed.dfy`, `confirm_race.dfy` | where the agent does other than it says: denied tools, confirmed results, concurrent confirmations |
| `agent_audit.dfy`, `enforcing_executor.dfy`, `agent_wiring.dfy` | the audit trail of turns and runs, the permission-checking executor, and that one is wired to the other |
| `text.dfy`, `decimal.dfy`, `sorting.dfy` | strings, numerals, sorting |
| `highlight.dfy`, `highlight_pieces.dfy`, `callouts.dfy`, `tabs.dfy`, `headings.dfy`, `docs_search.dfy`, `docs_ranking.dfy` | the docs site |
| `sdk_network.dfy`, `autoscaler.dfy` | the plugin side |

## Model

| member | source | states |
|---|---|---|
| `AgentRuns.DestructiveRunsAreVetted` | internal/app/lahijan/agent/service.go:532-652 | In every run of turns, confirmations, policy changes and deletions, every execution of a destructive tool happened in an approved confirmation by the user who owns the row, on a row that was pending just before. |
| `AgentRuns.StepRunsOnlyVetted` | internal/app/lahijan/agent/llm_harness.go:181-206 | One step of a run adds no execution of a destructive tool unless it is such a confirmation: a turn, in harness and service together, runs only read-only tools. |
| `AgentRuns.DecidedRowsAreFinal` | internal/app/lahijan/agent/service.go:608-652 | Once a row is not pending, no continuation of the run changes anything in it while it exists. |
| `AgentRuns.DeletedRowsStayDeleted` | internal/app/lahijan/database/migrations/0049_agent_chat.up.sql:46-48 | The id of a row that was deleted with its conversation is never given out again in the run. |
| `AgentRuns.DecidedRowsRefuseConfirm` | internal/app/lahijan/agent/service.go:617-625 | A confirmation of a row that is not pending returns the not-pending error and changes neither rows nor executions. |
| `AgentRuns.StillPendingIffWritesFailed` | internal/app/lahijan/agent/service.go:634-643 | After an approved confirmation the row can be confirmed again if and only if both status writes failed. |
| `AgentRuns.ConfirmOnlyItsRow` | internal/app/lahijan/agent/service.go:608-652 | A confirmation adds and removes no row, changes no other row, and leaves its own alone when it was decided. |
| `AgentConfirmed.ConfirmedNoteGoesElsewhere` | internal/app/lahijan/agent/service.go:644-649 | A confirmation changes the messages of no conversation, except of one that had the id of the row's message. |
| `AgentConfirmed.RowsAreForNoConversation` | internal/app/lahijan/database/migrations/0049_agent_chat.up.sql:46-48 | In every run, the message id of a tool-call row is the id of no conversation. |
| `AgentConfirmed.ConfirmedResultsAreInNoConversation` | internal/app/lahijan/agent/service.go:644-649 | So after any run a confirmation, approved or not, adds nothing to any conversation that exists. |
| `AgentConfirmed.ApprovalsReportFailure` | internal/app/lahijan/database/migrations/0049_agent_chat.up.sql:32 | Where a message must belong to a conversation, as the table demands: after any run, approving a pending row runs its tool exactly once and then reports a failure. |
| `AgentLifecycle.RowsFollowTheirStories` | internal/app/lahijan/agent/service.go:548-652 | With status writes succeeding, in every run the statuses ever written to a row are one of six stories: inline executed or failed, pending, pending then rejected, pending then approved then executed or failed; the row shows the last of them, and asks for confirmation exactly when the first is pending. |
| `AgentLifecycle.NoRowRunsTwice` | internal/app/lahijan/agent/service.go:552-643 | With status writes succeeding and each confirmation one atomic step, no two executions in the log of any run are of one row, be it inline or by confirmation. |
| `AgentLifecycle.ConfirmDecides` | internal/app/lahijan/agent/service.go:608-652 | A confirmation changes no call at all, or decides one pending row by exactly the writes of its story with at most one execution, that one for this row. |
| `AgentCalls.CallIsStored` | internal/app/lahijan/agent/service.go:532-594 | A call that policy does not deny and that can be stored adds exactly one row, with the user and message of the turn and the tool and arguments of the call, pending exactly when it is parked; the client is shown the call, or its result, under the id of that row; and the turn ends exactly when a parked call could not be shown. |
| `AgentCalls.ResultIsStored` | internal/app/lahijan/agent/service.go:552-593 | With the writes working, the row of a call that is not parked shows the harness's result, or else what the tool says now. |
| `AgentCalls.CallIsRefused` | internal/app/lahijan/agent/service.go:540-547 | A denied call changes no call, shows the client one error and does not end the turn; a call that cannot be stored ends it and shows nothing. |
| `AgentCalls.RowWasAsked` | internal/app/lahijan/agent/service.go:562-573 | In every run, each row was created by a turn of its user for its message, and has the tool and arguments of a call that the harness put on the channel of that turn. |
| `AgentCalls.ConfirmedRunsWereAsked` | internal/app/lahijan/agent/service.go:608-643 | In every run, each confirmed execution followed an approval by its actor, and has the tool and arguments of a call that the harness put on the channel of the turn, of that same user, that created its row. |
| `AgentTurns.ConsumeIsFaithful` | internal/app/lahijan/agent/service.go:446-481 | For any events and any pattern of emit failures the accumulated content is the concatenation of the text handed to emit, and a done event is handed over at most once with nothing after it. |
| `AgentTurns.ReplyIsWhatWasStreamed` | internal/app/lahijan/agent/service.go:425-433 | After a delivered turn whose reply could be written, message by message: the list has its old length, the message with the id of the reply has as its content the text the client was handed and is otherwise as before, and every other message is what it was. |
| `AgentRecord.TurnIsRecorded` | internal/app/lahijan/agent/service.go:330-440 | A turn that reaches the harness adds exactly two messages to the tables and changes no other: the prompt as it was sent, and behind it a reply that is the text the client was handed, each with user, conversation and role. |
| `AgentRecord.RunsNumberMessages` | internal/app/lahijan/agent/service.go:359-405 | What that rests on holds after any run: no message has an id still to be given out. |
| `AgentRecord.OutcomeTellsEnding` | internal/app/lahijan/agent/service.go:379-440 | With a working audit log, the last outcome of a turn that reaches the harness is that of the row the turn opened, and it is a success exactly when the service got to a done event or the end of the channel, the done event got through to the client and the reply was saved. |
| `AgentRecord.RejectionIsRecorded` | internal/app/lahijan/agent/service.go:617-631 | With the writes working, a rejection marks the row rejected, runs nothing, writes one audit row and answers with the row as it is then. |
| `AgentRecord.ApprovalIsRecorded` | internal/app/lahijan/agent/service.go:633-652 | With the writes working, an approval leaves the row executed or failed with the result or the wrapped error, stores that text as a note, audits the run and answers with the row as it is then. |
| `AgentRecord.OpeningIsRecorded` | internal/app/lahijan/agent/service.go:136-158 | A new conversation belongs to its user, is not archived and has a new id, which is the answer. |
| `AgentRecord.PolicyIsRecorded` | internal/app/lahijan/agent/service.go:824-846 | A policy is stored as it was given, with a window of a minute if it has none, and audited. |
| `AgentTurns.ConsumeChargesOnce` | internal/app/lahijan/agent/service.go:488-505 | A turn charges the meter at most once, for its own user and message, with the usage of one of its done events, and only for an admin-provided model on a metered service. |
| `AgentTurns.ConsumeChargesExactly` | internal/app/lahijan/agent/service.go:446-505 | The meter is charged exactly when the service gets to a done event with usage, for an admin-provided model on a metered service, and with that usage. |
| `AgentTurns.ConsumeEndsWellIff` | internal/app/lahijan/agent/service.go:446-481 | Consuming reports no failure exactly when the service gets to a done event or to the end of the channel and the done event it hands over gets through. |
| `AgentTurns.RunsNeverCharge` | internal/app/lahijan/agent/service.go:748-782 | As providers are resolved, no model is admin-provided, so no run ever charges the meter. |
| `AgentTurns.HandleRuns` | internal/app/lahijan/agent/service.go:532-594 | The service runs a call itself if and only if policy does not deny it, it carries no result, it is not parked, and its row could be stored. |
| `AgentTurns.RunsAgainIffEmpty` | internal/app/lahijan/agent/service.go:552-593 | An undenied read-only call is run by the service exactly when its recorded result is empty. |
| `AgentTurns.TurnRunsUnanswered` | internal/app/lahijan/agent/service.go:552-594 | A whole turn, whatever the results: besides what the harness ran, the service runs exactly the undenied read-only calls it handles whose recorded result is empty, in order. |
| `AgentTurns.EmptyResultRunsTwice` | internal/app/lahijan/agent/service.go:552-594 | A turn in which the model asks for a tool once, the channel carries one call with an empty result, and the tool is run twice. |
| `AgentTurns.ReadOnlyCallsRunOnce` | internal/app/lahijan/agent/llm_harness.go:184-205 | With non-empty results, and whether or not the harness has an executor: the undenied executions of harness and service for the events the service handles to their end are the undenied read-only calls among those, each exactly once and in order; for later events the service runs none, and without an abort it handles all of them. |
| `AgentDenied.DeniedRunsOfATurn` | internal/app/lahijan/agent/service.go:540-547 | The denied tools that a turn runs are, run by run with arguments and results, the denied read-only calls on the channel of a harness with an executor, and none without one. |
| `AgentDenied.DeniedToolCanRunIff` | internal/app/lahijan/agent/llm_harness.go:181-206 | For every state, turn and request with a model: some model behaviour makes the turn run a tool that its policy denies if and only if the harness has an executor and some denied tool is read-only. |
| `AgentDenied.FirstCallRuns` | internal/app/lahijan/agent/llm_harness.go:181-206 | A model whose first reply asks for a read-only tool has it run by a harness with an executor, whatever policy says. |
| `AgentDeniedRuns.DeniedRunsAreLate` | internal/app/lahijan/agent/service.go:532-652 | In every run, each execution of a tool that the policy in force at its step denies is either the harness's run of a read-only tool, with an executor of its own, in a turn of that user, or the approved confirmation of a pending row by its owner. |
| `AgentDeniedRuns.DecideRunsDeniedIff` | internal/app/lahijan/agent/service.go:608-652 | A confirmation runs a tool that the policy in force denies if and only if it approves, the row can be approved at all, and its tool is denied: the policy is not consulted. |
| `AgentDeniedRuns.DenyingIsTooLate` | internal/app/lahijan/agent/service.go:608-652 | After any run with a pending row, denying its tool does not keep the approval that follows from running it. |
| `AgentTurns.PrecheckForetellsTurn` | internal/app/lahijan/agent/service.go:295-370 | From the same state and clock, with the repository working: an error of the pre-flight check is the error of the turn, and after a clean check the turn fails for none of its reasons. |
| `AgentTurns.PromptIsInHistory` | internal/app/lahijan/agent/service.go:359-392 | The history given to the harness ends with the prompt of the turn itself. |
| `AgentTurns.PromptIsSentTwiceIff` | internal/app/lahijan/agent/llm_harness.go:442-459 | The messages sent to the model end with the prompt twice in a row if and only if it is not empty. |
| `AgentAdmission.TurnFollowsVerdict` | internal/app/lahijan/agent/service.go:330-370 | With reads working, a turn is refused for the first of these that applies and changes nothing: the agent is off, the prompt too long, the conversation not the user's, archived, the rate limit reached. If none does, it can only fail for a failing write or key, or because policy forces admin models. |
| `AgentAdmission.RateLimitedIff` | internal/app/lahijan/agent/service.go:854-871 | With reads working, a turn answers that the limit is reached if and only if it passes the checks before that one and the user's prompts since now minus the window number at least the positive cap. |
| `AgentAdmission.DeliveredModelIsAllowed` | internal/app/lahijan/agent/service.go:748-782 | Every turn that reaches the harness asks the model of the user's first enabled row that policy allows, or none if there is no such row, with the prompt as it was sent; and offers exactly the catalog tools that no deny entry names. Without a stored policy nothing is denied, capped or forced. |
| `AgentAdmission.SpendIsExact` | internal/app/lahijan/agent/service.go:511-528 | The spending cap refuses exactly for an admin-provided model on a metered service, when policy has a cap and the balance is not positive. |
| `AgentAdmission.HistoryIsLastTwenty` | internal/app/lahijan/agent/service.go:891-904 | The history is, by index, the last twenty of the conversation's messages, or all if there are fewer, each with its content and the name of its role. |
| `AgentAdmission.StrangersFindNothing` | internal/app/lahijan/agent/service.go:273-286 | A turn, an archiving and a deletion by a user who does not own the conversation answer that it is not there and change nothing. |
| `AgentAdmission.StrangersDecideNothing` | internal/app/lahijan/agent/service.go:616-622 | So does a confirmation of another user's tool call, and nothing runs. |
| `AgentAdmission.OwnersArchive` | internal/app/lahijan/agent/service.go:252-267 | An owner's archiving sets the status of that conversation and of no other, and answers with it. |
| `AgentAdmission.OwnersDelete` | internal/app/lahijan/agent/service.go:238-250 | An owner's deletion takes exactly the conversation, the messages in it and the tool calls of these messages; the rest stays as it was, in order; and it is audited. |
| `AgentAudit.TurnIsAuditedOnce` | internal/app/lahijan/agent/service.go:379-440 | With a working audit log, a turn refused before it answers leaves the audit log alone and reports an error. Any other opens exactly one row for sending, and its last act is that row's only outcome, never a success when the turn reports an error; all other rows and outcomes it adds are the executor's own, under later ids. |
| `AgentAudit.AnswerIsAuditedOnce` | internal/app/lahijan/agent/service.go:379-440 | The row is the one opened before the history is loaded, and its outcome is written on every path out of the turn, whatever rows and outcomes the executor writes in between. |
| `AgentAudit.RunsAuditTurnsOnce` | internal/app/lahijan/agent/service.go:379-440 | With a working audit log, after any run every row for sending has exactly one outcome in the whole log, and its id is the id of no other row. |
| `AgentWiring.EnforcedCallIsExecute` | internal/app/lahijan/program/agent_module.go:53-72 | A call of the enforcing executor that service and harness share adds to the audit log exactly the rows and outcomes of its trace, under the same ids and with the same result: it is one case of the executor of the agent model. |
| `AgentWiring.EnforcedRunsAreGated` | internal/app/lahijan/program/agent_module.go:53-72 | In every run whose executor is the enforcing one, each execution of a module tool was for the user of the turn or confirmation that asked for it, and either ran once inside, right behind a granted check of its permission for that user and with the logged result, or ran nothing and the log shows the refusal. |
| `AgentRateLimit.WindowsAreCapped` | internal/app/lahijan/agent/service.go:854-871 | With the same cap and window in force at every turn, after any run no half-open interval of the window's length, wherever it lies, holds more than cap of a user's stored prompts. |
| `AgentRateLimit.SpacedWindows` | internal/app/lahijan/agent/service.go:854-871 | The invariant kept by every step, that each prompt had room in the window ending with it, bounds every window of that length. |
| `AgentRateLimit.DeletionKeepsSpacing` | internal/app/lahijan/database/migrations/0049_agent_chat.up.sql:30-37 | Deleting a conversation with its messages keeps that invariant. |
| `AgentQuota.AdmittedIsStoredOrDeleted` | internal/app/lahijan/agent/service.go:854-871 | Over any run and in any interval, the prompts ever admitted of a user are, in number, those still stored and those deleted with a conversation. |
| `AgentQuota.AdmissionsAreCapped` | internal/app/lahijan/agent/service.go:854-871 | With the same cap and window in force at every turn, no interval of that length has seen more than cap prompts admitted beyond the ones deleted from it since. |
| `AgentQuota.AdmissionExceedsIff` | internal/app/lahijan/agent/service.go:854-871 | After any run, an admitted prompt brings an interval it falls in above a number of admitted prompts if and only if the stored and the deleted prompts of that interval made up that number before the call. |
| `AgentQuota.DeletionAdmitsAny` | internal/app/lahijan/database/migrations/0049_agent_chat.up.sql:30-37 | Whatever the cap, and with it in force at every turn, some run admits any given number of prompts of one user at one time, by deleting conversations. |
| `AgentService.ToolDenied` | internal/app/lahijan/agent/service.go:1003-1011 | True exactly when some entry of the deny list folds to the same name. |
| `AgentService.ModelAllowed` | internal/app/lahijan/agent/service.go:979-1000 | True exactly when the list is empty or some non-empty pattern is the model's name or, ending in a star, a prefix of it. |
| `AgentService.FirstUsableIsChosen` | internal/app/lahijan/agent/service.go:758-781 | What `PickProvider` is tied to is the row with the least index, and nothing if there is none, for any list of rows. |
| `AgentService.ToolsFor` | internal/app/lahijan/agent/service.go:875-888 | The tools sent along with every request of a turn: exactly the catalog tools that policy does not deny, in the order of the catalog, and none without an executor. |
| `AgentService.Service.PrecheckTurn` | internal/app/lahijan/agent/service.go:295-324 | Checks in the source's order, first failing check reported; reads only, the world changes by ticks. |
| `AgentService.Service.EnforceRateLimit` | internal/app/lahijan/agent/service.go:854-871 | Refuses exactly when the cap is positive and at least as many of the user's prompts, counted as a set of positions in the message list, are later than now minus the window, a minute when not set. |
| `AgentService.RateCheckIsExact` | internal/app/lahijan/agent/service.go:854-871 | The same of the function the runs are built on. |
| `AgentWorld.CountIsCardinality` | internal/app/lahijan/database/queries/agent.sql:61-65 | The count is the cardinality of the set of positions of the user's later prompts. |
| `AgentService.Service.HandleToolCall` | internal/app/lahijan/agent/service.go:532-594 | The new world and the abort flag are those of `Handle`: denied, already run, parked, or run inline; and a call that is not denied and can be stored leaves a row with its user, message, tool and arguments. |
| `AgentService.Service.ConsumeEvents` | internal/app/lahijan/agent/service.go:446-481 | The loop over the channel leaves the world, content and failure of the specification `Consume`. |
| `AgentService.Service.Stream` | internal/app/lahijan/agent/service.go:330-440 | A whole turn leaves exactly the world and error of the specification `StreamMessage`, on every path. |
| `AgentService.Service.ConfirmToolCall` | internal/app/lahijan/agent/service.go:608-652 | A confirmation leaves exactly the world and answer of the specification `Confirm`, on every path. |
| `AgentService.Service.PickProvider` | internal/app/lahijan/agent/service.go:758-781 | The answer has provider, model, base URL and opened key of the row with the least index among the enabled ones of the user whose model policy allows; it is a failure exactly when that key cannot be opened, and an empty provider when there is no such row. |
| `AgentService.Service.HistoryFor` | internal/app/lahijan/agent/service.go:891-904 | The last twenty messages of the conversation in order, with their roles. |
| `AgentService.Service.Open` | internal/app/lahijan/agent/service.go:136-158 | The world and answer are those of `CreateConversation`, which `AgentRecord.OpeningIsRecorded` spells out. |
| `AgentService.Service.SetConversationStatus` | internal/app/lahijan/agent/service.go:253-267 | The world and answer are those of `SetArchived`: nothing changes for a stranger, and an owner gets `AgentAdmission.OwnersArchive`. |
| `AgentService.Service.SetPolicy` | internal/app/lahijan/agent/service.go:824-846 | The world and answer are those of `UpsertPolicy`, which `AgentRecord.PolicyIsRecorded` spells out. |
| `AgentService.Service.Delete` | internal/app/lahijan/agent/service.go:238-250 | Deletes the conversation, its messages and their tool-call rows, and nothing of another conversation. |
| `AgentWorld.Backend.CountMessagesSince` | internal/app/lahijan/database/queries/agent.sql:61-65 | Returns the number of positions in the message list at which a prompt of that user later than the given time stands. |
| `AgentWorld.Backend.SetToolCallStatus` | internal/app/lahijan/database/queries/agent.sql:84-88 | Writes the status of a row its user owns, and of no other; on a failure nothing changes. |
| `AgentWorld.Cascade` | internal/app/lahijan/database/migrations/0049_agent_chat.up.sql:30-52 | Splits the messages into those outside a conversation, in order, and the ids of those inside. |
| `ConfirmRace.RunsAreEarlyApprovals` | internal/app/lahijan/agent/service.go:616-643 | For any number of requests in any interleaving, with any write failures: once all are done, the tool ran exactly as often as approving requests read the row before its first successful write; so at most once if and only if there was at most one. |
| `ConfirmRace.RunsNeedEarlyApprovals` | internal/app/lahijan/agent/service.go:616-643 | At every moment of every interleaving, the tool has not run more often than that. |
| `ConfirmRace.AtMostOnceIffOneApproves` | internal/app/lahijan/agent/service.go:616-643 | A condition on the requests alone: every interleaving runs the tool at most once if and only if at most one request approves. |
| `ConfirmRace.NoMoreRunsThanApprovals` | internal/app/lahijan/agent/service.go:616-643 | In no interleaving does the tool run more often than there are approving requests. |
| `ConfirmRace.StepKeepsBalance` | internal/app/lahijan/agent/service.go:623-643 | Every step of any request keeps the accounting between reads, writes, runs and how far each request has come. |
| `ConfirmRace.TwoApprovalsRunTwice` | internal/app/lahijan/agent/service.go:623-634 | Any two approvals among any requests, both reading before either writes, run the tool twice. |
| `ConfirmRace.RejectedRowMayHaveRun` | internal/app/lahijan/agent/service.go:623-643 | For any approving and any rejecting request among any others there is an interleaving that runs the tool once, settles, and leaves the row rejected. |
| `ConfirmRace.RejectedRowRanIff` | internal/app/lahijan/agent/service.go:623-643 | On the requests alone: some interleaving ends with everything settled, the row rejected and the tool run if and only if some request approves and some request rejects. |
| `ConfirmRace.ConfirmIsAlone` | internal/app/lahijan/agent/service.go:608-652 | The atomic confirmation of the service model ends with the status and the number of runs of one request that meets no other. |
| `ConfirmRace.StepsAlone` | internal/app/lahijan/agent/service.go:608-652 | Taken step by step, a lone request ends with that same status and number of runs. |
| `LlmHarness.RunIsSound` | internal/app/lahijan/agent/llm_harness.go:100-215 | For every model behaviour: at most one done event and that one last; every surfaced call is on the channel without a result; the executor's log grows by exactly the other calls on the channel, in order, each with the very result that the channel carries for it; nothing else changes but what the executor writes to the audit log. |
| `LlmChannel.ChannelIsWhatModelSaid` | internal/app/lahijan/agent/llm_harness.go:135-215 | For every model behaviour, the channel carries, reply by reply and in order, exactly the text and errors of the chunks before the sentinel and then the calls of the reply with their ids, names and arguments, before its end. |
| `LlmChannel.RoundsFollowReplies` | internal/app/lahijan/agent/llm_harness.go:135-215 | The first request carries the base transcript; another one is made exactly when the last reply asked for calls and the harness ran them all, up to the sixth; each carries the one before it, the calls, and one message per call; and the last reply decides whether the turn is done or broken. |
| `LlmChannel.RepliesAreAnswers` | internal/app/lahijan/agent/llm_harness.go:242-291 | A request fails exactly when it is refused or its stream breaks before the sentinel, and then keeps what was said so far. |
| `LlmChannel.AnswersHaveCalls` | internal/app/lahijan/agent/llm_harness.go:299-383 | However the calls of a reply are cut into fragments and interleaved over its lines, the answer has exactly these calls in the order of their indices. |
| `LlmChannel.RunIsStream` | internal/app/lahijan/agent/llm_harness.go:100-126 | Without provider or key the channel carries the one message that says so, and otherwise the stream, with one error behind it if it broke for a reason. |
| `LlmHarness.TranscriptsAreWellFormed` | internal/app/lahijan/agent/llm_harness.go:144-214 | A turn makes at most six model requests, and in each the assistant messages with tool calls are followed at once by exactly one tool message per call, same ids, same order, with no tool message elsewhere. |
| `LlmHarness.RunCallsAnswers` | internal/app/lahijan/agent/llm_harness.go:181-206 | A round without a surfaced call appends one tool message per call, in order. |
| `LlmHarness.UsageIsSummed` | internal/app/lahijan/agent/llm_harness.go:147-225 | A finished turn ends with a done event whose usage is the componentwise sum of the last usage frame of each round, nil exactly when the three sums are zero. |
| `ToolCallStream.LastUsageIsLast` | internal/app/lahijan/agent/llm_harness.go:318-334 | The usage of a reply is that of the last chunk without error that carries one, and none exactly if there is none. |
| `LlmHarness.HistoryIsReplayed` | internal/app/lahijan/agent/llm_harness.go:442-459 | Each message of the history with any content appears once, in its place, as user, system or else assistant; the system prompt stands before them if there is one, and the prompt behind. |
| `LlmHarness.BuildMessages` | internal/app/lahijan/agent/llm_harness.go:442-459 | System prompt if set, the non-empty history with unknown roles as assistant, then the prompt. |
| `LlmHarness.Harness.DriveTurn` | internal/app/lahijan/agent/llm_harness.go:135-215 | The round loop leaves the world, events and ending of `Rounds`, of which `LlmChannel.ChannelIsWhatModelSaid` and `LlmChannel.RoundsFollowReplies` say what the model's replies make of it. |
| `LlmHarness.Harness.RunTurn` | internal/app/lahijan/agent/llm_harness.go:100-126 | Without provider or key one error event and nothing else; a failure other than cancellation becomes one error event behind what was streamed. |
| `LlmResults.ModelIsToldEveryResult` | internal/app/lahijan/agent/llm_harness.go:184-205 | Whatever the model does, the tool messages of the transcript are the results on the channel, id by id and word for word, and every request carried a first part of them. |
| `ToolCallStream.FoldIsPerIndex` | internal/app/lahijan/agent/llm_harness.go:335-355 | The folded map holds, at exactly the indices that occur, the last non-empty id and name and the concatenated arguments of the fragments of that index. |
| `ToolCallStream.ReassemblyInvertsSplitting` | internal/app/lahijan/agent/llm_harness.go:299-383 | Any calls, split into any fragments and interleaved in any order that keeps the order per index, reassemble to exactly those calls, in index order. |
| `ToolCallStream.ReassemblyIgnoresInterleaving` | internal/app/lahijan/agent/llm_harness.go:335-383 | Two streams that agree index by index reassemble alike. |
| `ToolCallStream.Reader.ParseLine` | internal/app/lahijan/agent/llm_harness.go:299-357 | One line extends text, fragments and last usage of the lines before it, and reports exactly the sentinel. |
| `ToolCallStream.Reader.Materialize` | internal/app/lahijan/agent/llm_harness.go:361-383 | The calls of the map in ascending index order, whatever order the keys come in. |
| `ToolCallStream.CallModel` | internal/app/lahijan/agent/llm_harness.go:242-291 | A refused request or a stream that breaks before the sentinel is interrupted with the text so far; otherwise text, calls and usage of the lines before the sentinel. |
| `EnforcingExecutor.InnerRunsAreGated` | internal/app/lahijan/agent/enforcing_executor.go:70-101 | Over any calls and any policy behaviour, the inner executor runs a module tool only right behind a passed check of that tool's slug for the caller in context. |
| `EnforcingExecutor.GrantsAreDeserved` | internal/app/lahijan/auth/rbac/require.go:35-58 | Over any calls, a granted check is of a known user in a known tenant and was answered with yes by the policy. |
| `EnforcingExecutor.VerdictIsExact` | internal/app/lahijan/auth/rbac/require.go:35-58 | Each verdict has exactly one cause: no user, no tenant, no policy, a failing policy, a no, a yes. |
| `EnforcingExecutor.RefusalsSayWhy` | internal/app/lahijan/auth/rbac/require.go:35-58 | The text of each refusal; that of a failing policy names the permission and quotes the failure. |
| `EnforcingExecutor.GatedTools` | internal/app/lahijan/agent/enforcing_executor.go:49-55 | The tools that are gated, and the permission each asks for. |
| `EnforcingExecutor.EveryAttemptIsAudited` | internal/app/lahijan/agent/enforcing_executor.go:83-133 | With a working emitter, each attempt on a module tool leaves exactly one audit row, in order, naming tool, permission and user, right behind its check: pending if that granted, with exactly one outcome that agrees with the result of its run; a failure without outcome, with the reason, if it refused. |
| `EnforcingExecutor.Executor.ExecuteTool` | internal/app/lahijan/agent/enforcing_executor.go:70-101 | The trace grows, and the result is, as in the specification `Execute`. |
| `EnforcingExecutor.Executor.Check` | internal/app/lahijan/auth/rbac/require.go:35-58 | Grants only a known user and tenant under a wired policy that answers yes. |
| `EnforcingExecutor.Executor.WriteAudit` | internal/app/lahijan/agent/enforcing_executor.go:105-133 | One row whose metadata is the fixed entries overlaid by the extra ones; the nil id and no row when the emitter fails. |
| `EnforcingExecutor.Overlay` | internal/app/lahijan/agent/enforcing_executor.go:115-117 | Copying entries in any key order gives the one overlay. |
| `Highlight.ChainIsPerChar` | website/scripts/docs/highlight.ts:12 | The chained replacements, of `esc` and of `escapeHtml`, equal one map per character. |
| `Highlight.DecodeInvertsEscape` | website/scripts/docs/markdown.ts:67-73 | Decoding the entities gives back any text escaped by either chain. |
| `Highlight.HighlightLosesNothing` | website/scripts/docs/highlight.ts:99-128 | For every line, rule list and matcher that stays in the line: dropping the tags of the markup and decoding the entities gives back the line. |
| `Highlight.HighlightLine` | website/scripts/docs/highlight.ts:99-128 | The scan terminates with the markup of the first-match cut of the line, and loses nothing. |
| `Highlight.PiecesCoverLine` | website/scripts/docs/highlight.ts:105-126 | The pieces of the scan, joined, are the rest of the line. |
| `HighlightPieces.PieceIsExact` | website/scripts/docs/highlight.ts:105-126 | The piece at a position is the text matched there by the rule with the least index that may be used there and matches, in a span of its class, with the indentation of a grouped key kept outside; and one escaped character if no rule applies. |
| `Callouts.MarkCallouts` | website/scripts/docs/markdown.ts:231-264 | On the token array in place: every open carries the kind its third token names, every close the kind of the open it matches, unmatched closes none, and no other token changes. |
| `Callouts.ScanFindsMatch` | website/scripts/docs/markdown.ts:253-261 | The depth counter stops at the matching close, or finds that depth never returns to zero. |
| `Callouts.FindClose` | website/scripts/docs/markdown.ts:253-261 | Returns the matching close if there is one and the length if there is none. |
| `Callouts.MarksAgree` | website/scripts/docs/markdown.ts:231-264 | In a balanced list each close matches exactly one open, and both carry the same mark or none. |
| `Callouts.EveryOpenCloses` | website/scripts/docs/markdown.ts:253-261 | In a balanced list every open has a matching close. |
| `Callouts.CalloutsRenderNested` | website/scripts/docs/markdown.ts:282-290 | The div and blockquote tags rendered from a balanced marked list are well nested, for any nesting. |
| `Callouts.CalloutsAreNamed` | website/scripts/docs/markdown.ts:231-290 | A callout's div is opened exactly for a blockquote whose third token names a kind, with that kind, and closed exactly where that blockquote ends; any other stays a blockquote. |
| `Tabs.GroupTabs` | website/scripts/docs/markdown.ts:191-228 | No token is lost, added or moved, groups hold only tab fences, and no two groups meet. |
| `Tabs.GroupingIsUnique` | website/scripts/docs/markdown.ts:191-228 | There is only one such grouping of a token list. |
| `Headings.SlugsAreTheFixedPoints` | website/scripts/docs/markdown.ts:76-86 | A text is its own slug if and only if it is not empty, has only a-z, 0-9 and dashes, and no two dashes in a row. |
| `Headings.SlugifyIsIdempotent` | website/scripts/docs/markdown.ts:76-86 | Slugifying twice is slugifying once. |
| `Headings.SlugsAreSlugs` | website/scripts/docs/markdown.ts:76-86 | Every slug is not empty and has only a-z, 0-9 and single dashes. |
| `Headings.SlugKeepsWords` | website/scripts/docs/markdown.ts:76-86 | The words of a slug, cut at dashes, are the words of the lower-cased text, cut at spaces and dashes; the fallback is used exactly when the text has no letter, digit or dash. |
| `Headings.TwoPassesAreOne` | website/scripts/docs/markdown.ts:83-84 | Replacing runs of spaces and then runs of dashes is replacing runs of both at once. |
| `Headings.IdsDistinctIffNoClash` | website/scripts/docs/markdown.ts:339-348 | The ids of a list of slugs are pairwise distinct if and only if no repeat is numbered into the slug of another heading. |
| `Headings.PlainSlugsGetDistinctIds` | website/scripts/docs/markdown.ts:339-348 | They are distinct whenever no slug is another one, a dash and a decimal number. |
| `Headings.FooFooFooOneCollides` | website/scripts/docs/markdown.ts:339-348 | On a page with a heading that is its own slug and does not end in a dash, the same heading again, and that text with "-1", the ids of the last two are equal. |
| `Headings.NumberedIsInjective` | website/scripts/docs/markdown.ts:347 | A slug, a dash and a number determine slug and number. |
| `Headings.SetHeadingIds` | website/scripts/docs/markdown.ts:337-353 | Sets the ids in place as specified and lists exactly the headings of level two and three; throws exactly on a level-one heading. |
| `Headings.IdsAreAsSpecified` | website/scripts/docs/markdown.ts:339-348 | The ids set are, heading by heading, the slug or the slug with the number of its earlier occurrences. |
| `Headings.HeadingIdsDistinctIff` | website/scripts/docs/markdown.ts:337-353 | The ids on a page are pairwise distinct if and only if no repeated heading is numbered into the slug of another. |
| `Headings.OutlineIsExact` | website/scripts/docs/markdown.ts:337-353 | The outline has an entry with id, text and level exactly for each heading of level two or three, in order. |
| `DocsSearch.SearchKeepsTheBest` | website/src/docs/search.ts:45-48 | The results are in order of score and then title; a page that matches every term is among them, or twelve results are, each before it or level with it. |
| `DocsSearch.ResultsMatch` | website/src/docs/search.ts:29-48 | At most twelve results, each of a page on which every term occurs in title, a heading or the text. |
| `DocsSearch.NothingIsLost` | website/src/docs/search.ts:45-48 | Kept and omitted hits together are the hits, with multiplicity. |
| `DocsSearch.HitsAreTheMatches` | website/src/docs/search.ts:25-44 | A page is a hit if and only if it matches every term. |
| `DocsSearch.TermsAreWords` | website/src/docs/search.ts:21-23 | The terms are non-empty, and there are none exactly for a blank query. |
| `DocsSearch.ScorePage` | website/src/docs/search.ts:27-42 | The score is positive exactly when every term is in title, a heading or the text, and then it is the sum of the points and the context is the first matching heading. |
| `DocsSearch.SearchDocs` | website/src/docs/search.ts:20-49 | Returns the first twelve of the ranked hits. |
| `DocsRanking.ResultsAreTheBest` | website/src/docs/search.ts:20-49 | A search with terms returns distinct matching pages, each with slug, title and context, by score, then title, then place in the index; a matching page is left out only behind twelve better ones. This leaves one answer to each query. |
| `DocsRanking.MatchIsOccurrence` | website/src/docs/search.ts:29-42 | A term matches a page exactly when it stands somewhere in the lower-cased title, a heading or the text. |
| `DocsRanking.PointsAreExact` | website/src/docs/search.ts:30-41 | What one term is worth, by where it stands: 12 or 8 for the title, 4 for headings, 2 for the description, 1 for the text. |
| `DocsRanking.ContextIsFirstHeading` | website/src/docs/search.ts:31-35 | The context is the first heading with the earliest term that any heading has, and empty exactly when no heading has a term. |
| `Text.SplitTakesWord` | website/src/docs/search.ts:23 | A query is split into one term after the other: what stands before a run of spaces, and at the end the rest. |
| `Text.TrimDropsSpaces` | website/src/docs/search.ts:21 | Trimming drops spaces at both ends and nothing else. |
| `SdkNetwork.Do` | sdk-go/network/network.go:48-96 | Returns the answer of the first host call not told to grow, or of the ninth; makes exactly those calls; never hands over more than 8 KiB and 1 MiB. |
| `SdkNetwork.ExactOrTooSmall` | sdk-go/network/network.go:48-96 | Against a host that answers alike each time: the exact status, headers and body if header blob and body each fit their limit with the prefix, and otherwise the buffer-too-small error. |
| `SdkNetwork.DeliverableIff` | sdk-go/network/network.go:48-62 | What fits: at most 8188 bytes of header JSON, if there are headers, and 1048572 of body. |
| `SdkNetwork.CodeIsExact` | internal/app/lahijan/wasm/hostfuncs/network.go:173-234 | The code of a host call: a failure's own; the status without any buffer, or with room for both; otherwise the request for larger buffers. |
| `SdkNetwork.CodesAreNumbered` | sdk-go/status/status.go:59-85 | The codes from minus one to minus eight are all the errors, each once, in their order. |
| `SdkNetwork.CutBodiesAreNotDelivered` | internal/app/lahijan/wasm/hostfuncs/network.go:180-184 | A body longer than the limit less the prefix is never delivered. |
| `SdkNetwork.FailuresAreMapped` | sdk-go/status/status.go:59-85 | A host that fails alike each time yields the error of its code. |
| `SdkNetwork.FirstFitWins` | sdk-go/network/network.go:64-96 | When the host may answer each try anew, the first attempt that is not told to grow settles it. |
| `SdkNetwork.SizesReachTheirLimits` | sdk-go/network/network.go:74-85 | Doubling passes neither limit and reaches both on the ninth attempt and not before. |
| `SdkNetwork.PrefixedInvertsWriter` | sdk-go/network/network.go:121-150 | The length-prefixed reader gives back what the host wrote, whatever follows, and nil for nothing. |
| `SdkNetwork.Uint32InvertsPut` | sdk-go/network/network.go:125 | Reading four little-endian bytes undoes writing them. |
| `SdkNetwork.ReadLenPrefixedBytes` | sdk-go/network/network.go:139-150 | A copy of the prefixed data; nil when it is empty or does not fit. |
| `SdkNetwork.Host.HttpRequest` | internal/app/lahijan/wasm/hostfuncs/network.go:173-234 | With room in both buffers, writes prefix and data into each and returns the status; otherwise leaves both untouched and asks for more, except that a caller without buffers gets the status alone. |
| `SdkNetwork.FromCode` | sdk-go/status/status.go:59-85 | No error exactly for codes that are not negative; unknown negative codes are generic failures. |
| `Autoscaler.EveryThirdEventTicks` | examples/plugins/autoscaler-stub/main.go:42-73 | From an empty store, n events emit exactly n div 3 ticks, each with count 3 and the payload of its third event, and the stored text is the numeral of n mod 3. |
| `Autoscaler.TicksCountThree` | examples/plugins/autoscaler-stub/main.go:42-73 | With reads, writes and emits refused at will but no reset, every tick counts three, the store never holds more than two, and there are at most a third as many ticks as events. |
| `Autoscaler.RefusedResetOvercounts` | examples/plugins/autoscaler-stub/main.go:63-72 | Where nothing but resets is refused and payloads are JSON, some tick counts other than three if and only if the reset behind the third event of a round of three was refused and another event came; and if and only if some tick counts four. |
| `Autoscaler.ScanInvertsDigits` | examples/plugins/autoscaler-stub/main.go:46-55 | The scan gives back every non-negative int from its numeral, whatever non-digit text follows. |
| `Autoscaler.Itoa` | examples/plugins/autoscaler-stub/main.go:79-91 | The numeral of a non-negative number, filled backwards into twenty bytes; nothing for a negative one. |
| `Autoscaler.ParseCount` | examples/plugins/autoscaler-stub/main.go:46-55 | The wrapping value of the leading digits. |
| `Autoscaler.Plugin.OnEvent` | examples/plugins/autoscaler-stub/main.go:42-73 | One event changes store and ticks as the specification `Next` says, under any refusals. |
| `Autoscaler.NextIsExact` | examples/plugins/autoscaler-stub/main.go:42-73 | One event under any refusals: a stored text of at most 32 characters is counted on, anything else counts as zero; the new count is stored, from three on a tick is sent and zero stored, each unless refused; no other key changes. |
| `Decimal.ValueInvertsDigits` | examples/plugins/autoscaler-stub/main.go:79-91 | A numeral denotes the number it was written for. |
| `Decimal.LengthOfDigits` | examples/plugins/autoscaler-stub/main.go:83-84 | A number has at most k digits exactly when it is below ten to the k. |

## Left out

- The channel between harness and service: the harness turn runs to its end before its events are consumed, so an abort of the consumer does not cut the harness short and results of concurrent runs come in one order only.
- AgentLifecycle.NoRowRunsTwice: each confirmation is one step of a run here; what interleaving does to it is in `ConfirmRace`.
- AgentRateLimit.WindowsAreCapped: turns are atomic steps; two turns of a user in flight at once can both pass the check.
- AgentRuns.DeletedRowsStayDeleted: ids are drawn from a counter, where the database draws random UUIDs; that they are new is built into the model.
- AgentConfirmed.RowsAreForNoConversation: rests on the same counter, as do `AgentConfirmed.ConfirmedResultsAreInNoConversation` and `AgentConfirmed.ApprovalsReportFailure`; that no message has the id of a conversation is true of random UUIDs only in all likelihood.
- AgentTurns.ReadOnlyCallsRunOnce: calls behind the point where an aborted turn stopped may have been run by the harness; they are in its log (`LlmHarness.RunIsSound`), not in this statement.
- AgentQuota.AdmissionsAreCapped: as `AgentRateLimit.WindowsAreCapped`, for turns that do not overlap in time.
- AgentConfirmed.ApprovalsReportFailure: the foreign key of messages is a premise about the failing write; the tables of the model have no foreign keys.
- SdkNetwork.ExactOrTooSmall: the request that the SDK sends along is not modelled, only the response.
- Integer widths: token counts, byte counts and clocks are unbounded integers; the autoscaler's int wraps at a width that is a parameter.
- JSON: arguments and results are texts; `errJSON` is modelled without escaping; header maps are encoded and decoded by a lawful pair of functions.
- Message length is counted in characters where the source counts bytes.
- Unicode: case folding of tool and model names is an arbitrary function; the docs code's lower-casing and whitespace are parameters with laws.
- Regular expressions of the highlighter: an abstract matcher that stays in the line; which rules a language has is not modelled.
- Blocks other than blockquotes in the docs output, the stripping of the callout marker, `include` fences and front matter.
- Library sorts are modelled by an insertion sort; only order, content and stability of the result are used.
- `TouchConversation`, titles, listing and paging of conversations, messages and providers: they change nothing the results depend on.
- Saving and deleting provider rows: a run may replace the provider rows by any others at any step instead.
- Tenants: one tenant; the tenant and user scoping of rows appears as ownership by user.
- HTTP, server-sent events, timeouts, encryption, SQL, tracing and the request handlers.
- The other SDK packages (`kv`, `config`, `compute`, `dns`, `storage`): one buffer instead of two.
