# Brehon session layer: verified models

Brehon drives coding agents over several protocols. This project models the session layer of its
adapters in Dafny and proves what that layer promises: how a prompt, its answer, its permission
requests, its token bill and its on-disk status survive concurrent callers, a reader, timeouts,
cancellation and shutdown; and how two adapters compute the configuration they launch agents with.

`dafny verify dfyconfig.toml` checks everything.

## How the models are built

* **Protocols** are step machines: a `State`, an `Action` per lock scope or atomic update, `Enabled`
  and `Do`, and `ValidFrom`/`Final` over whole runs. A lock guard that the code keeps over several
  operations disables every other scope on that lock in the meantime. Fields named `past`, `books`,
  `gone`, `places` and the like are history: no step reads them to decide anything but what an
  assumption below allows.
* **Objects and loops** (`ResultCache`, `SessionSnapshotState`, `PermissionManager`, `Session`, the
  TOML upserts, the argument loop) are classes and methods, each proved equal to a specification
  function about which the lemmas speak.
* **Text** is a sequence of Unicode characters, with the white-space set of `str::trim` and the line
  endings of `str::lines`. Integers are unbounded; 64-bit saturation and wrap-around are explicit.

| file | component |
|---|---|
| `Common.dfy` | options, 64-bit arithmetic, duplicate-free queues |
| `PromptCache.dfy` | bounded result caches |
| `OpenAiRendezvous.dfy`, `KimiRendezvous.dfy`, `GeminiRouting.dfy`, `AcpSession.dfy`, `CodexTurns.dfy` | prompt rendezvous protocols |
| `TokenAccounting.dfy` | token attribution and settlement of an ACP session |
| `SnapshotWriter.dfy` | versioned snapshot writer |
| `Permissions.dfy`, `PermissionMediation.dfy` | permission manager and mediation |
| `OpenAiHistory.dfy` | trimmed message history and turns |
| `TomlText.dfy`, `TomlUpsert.dfy`, `TomlPatch.dfy`, `TomlEndings.dfy`, `KimiConfig.dfy` | Kimi configuration patcher |
| `CodexLaunch.dfy` | Codex launch configuration |

## Assumptions on the environment

* Each lock scope is one step. A oneshot wait that times out checks and drops its receiver in one step.
* Prompt, waiter, turn and channel ids are unique; `wait` and `cancel` are issued only for a prompt
  whose `send_prompt` returned.
* The peer answers only what was written to it. An ACP peer may answer any number of times; a Kimi
  peer answers a request once; a Gemini result is routed once per prompt.
* A Codex peer starts turns under fresh ids and completes only turns that it started.
* Disk writes succeed; an external JSON parser and the permission profile are parameters.

## Where the code falls short of the promise

Each promise that fails has its exact condition, proved for all runs or inputs, beside an input that
breaks it.

* **OpenAI wake-up.** The only waiter of a prompt has a wake-up to come or its result was evicted, in
  every run in which no kill drains the active map while a `send_prompt` is between its liveness check
  and its own insertion (`SoleWaiterIsWoken`); such a kill strands a sole waiter
  (`KillRaceStrandsSoleWaiter`). In any run the only exceptions are that kill, an eviction, and a
  second waiter of the same prompt that took the result (`NoLostWakeup`); each of them does strand a
  waiter (`EvictionStrandsSoleWaiter`, `TakenResultStrandsSecondWaiter`).
* **Snapshot convergence** holds up to exactly 2^64 - 1 claims (`Converges`, `SaturationLosesTheNewest`).
* **Token bounds.** Charges stay within twice `session_tokens_used` while the result sum fits in 64
  bits (`ChargedWithinTwice`); `fetch_add` wraps beyond that. Where only results are charged, the bound
  holds if and only if the sum fits, and every larger sum breaks it (`UpperBoundIff`,
  `EveryLargerSumBreaks`).
* **Permission race.** A decision reported as Resolved is what the agent is told if and only if the
  event handoff succeeded, or it is the timeout decision anyway (`DecisionIsExact`,
  `ResolvedHonouredIff`). A resolve that overtakes a failing handoff is overruled
  (`EarlyResolveIsOverruled`).
* **Codex.** A `turn/completed` without a turn id resolves the active prompt exactly while its turn is
  not recorded yet, and so can resolve a successor (`NamelessResolvesIffUnrecorded`,
  `NamelessCompletionMisroutes`); the routing theorems hold in every run without such a completion. A
  completion that arrives before its turn is recorded is dropped (`CompletionHandledIffRecorded`).
* **Gemini.** A waiter is served through its channel if and only if it registered before the router
  looked its prompt's completer up (`WokenIffInTime`); a later one can park with its result in the cache
  (`LateWaiterIsStranded`).
* **ACP.** A registered sender is outside the slot while its own answer is being handled, and at no
  other time (`SendersWithinSlot`).
* **Kimi patch** is idempotent if and only if every line that no upsert replaces ends with fewer carriage
  returns than there are rewrites, which are the upserts but for those that create `[mcp.client]` or
  `[loop_control]`; an unterminated last line may have as many as rewrites follow the upsert that
  terminates it (`PatchIdempotentIff`). Files whose lines end with `\n` or a single `\r\n` meet that;
  eight carriage returns before a line feed do not (`PatchNotAlwaysIdempotent`). Every rewrite also
  turns `\r\n` into `\n` throughout the file.
* **Codex launch.** `-c shell_environment_policy.a=1 -c shell_environment_policy.a.b=2` panics: a dotted
  write succeeds exactly if no value other than an object lies on its path (`SetNestedSucceedsIff`,
  `NestedOverridePanics`).

## Model

| member | source | states |
|---|---|---|
| `PromptCache.ResultCache.CacheOpenAi` | crates/brehon-adapter-openai/src/openai_compatible.rs:797-819 | storing in place equals the specification that moves a rewritten id to the back and evicts on queue length |
| `PromptCache.ResultCache.PopOpenAi` | crates/brehon-adapter-openai/src/openai_compatible.rs:821-834 | a pop returns the kept result, if any, and removes id and key |
| `PromptCache.ResultCache.CacheGemini` | crates/brehon-adapter-gemini/src/gemini.rs:636-655 | storing in place equals the specification that keeps a rewritten id's place and evicts on map size |
| `PromptCache.ResultCache.PopGemini` | crates/brehon-adapter-gemini/src/gemini.rs:623-634 | a pop returns the kept result and drops all its keys |
| `PromptCache.StoreOnListing` | crates/brehon-adapter-openai/src/openai_compatible.rs:797-819 | under either policy a store on a well-formed cache evicts at most the oldest entry and keeps the queue a duplicate-free listing of the map |
| `PromptCache.CacheRefinesLastWrites` | crates/brehon-adapter-openai/src/openai_compatible.rs:797-834 | after any sequence of stores and pops the queue lists the map's keys once each within the bound, and every kept entry is the last write to its id |
| `PromptCache.EvictedOnlyBehindCap` | crates/brehon-adapter-openai/src/openai_compatible.rs:797-834 | an id disappears only by a pop or with a full capacity of other ids queued behind it |
| `PromptCache.ResultSurvives` | crates/brehon-adapter-openai/src/openai_compatible.rs:797-834 | a result outlives every continuation in which fewer than the capacity of distinct other ids come to stand behind it |
| `PromptCache.FreshStoreHasNobodyBehind` | crates/brehon-adapter-openai/src/openai_compatible.rs:802-819 | an OpenAI store, rewrite or not, starts with nobody queued behind it |
| `PromptCache.RewriteKeepsPlace` | crates/brehon-adapter-gemini/src/gemini.rs:644-647 | a Gemini rewrite changes the result and not the place in the queue |
| `PromptCache.GeminiBoundOutOfStep` | crates/brehon-adapter-gemini/src/gemini.rs:344-350 | storing keeps the map within its bound for every queue, also one out of step with the map |
| `OpenAiRendezvous.StepInv` | crates/brehon-adapter-openai/src/openai_compatible.rs:180-409 | every lock scope of task, wait, cancel and kill keeps the invariant tying completers, channels, cache, active map and tasks together |
| `OpenAiRendezvous.NoLostWakeup` | crates/brehon-adapter-openai/src/openai_compatible.rs:194-409 | in every run a parked, unwoken waiter has a notify, a cancel's drop or a kill's clear still to come, unless its result was evicted, taken by another waiter of the same prompt, or cleared by a kill before the prompt entered the active map |
| `OpenAiRendezvous.WakeStepsWake` | crates/brehon-adapter-openai/src/openai_compatible.rs:194-409 | each of those steps does reach the waiter: the notify with its own result, the others by closing its channel |
| `OpenAiRendezvous.AnswerIsTheTasks` | crates/brehon-adapter-openai/src/openai_compatible.rs:265-373 | whatever a wait returns is the result that its own prompt's completion produced |
| `OpenAiRendezvous.SoleWaiterIsWoken` | crates/brehon-adapter-openai/src/openai_compatible.rs:194-409 | in every run, of any length, without a kill overtaking a send, the only waiter of a prompt has a wake-up to come or its result was evicted |
| `OpenAiRendezvous.KillRaceStrandsSoleWaiter` | crates/brehon-adapter-openai/src/openai_compatible.rs:180-263 | a run in which a kill overtakes a send and strands the only waiter of the only prompt |
| `OpenAiRendezvous.TakenResultStrandsSecondWaiter` | crates/brehon-adapter-openai/src/openai_compatible.rs:265-373 | a run in which a first waiter takes the result and a second one of the same prompt is stranded |
| `OpenAiRendezvous.EvictionStrandsSoleWaiter` | crates/brehon-adapter-openai/src/openai_compatible.rs:797-819 | a run in which 64 other results evict the prompt's own before its only waiter comes |
| `KimiRendezvous.StepInv` | crates/brehon-adapter-kimi/src/kimi.rs:1043-1092 | every step of send, wait, reader and fatal path keeps wake-up, routing, value and turn invariants |
| `KimiRendezvous.NoLostWakeup` | crates/brehon-adapter-kimi/src/kimi.rs:1257-1332 | in every run a parked waiter not yet notified has, if its result is cached, a producer between store and notify, and, if the session is fatal, the fatal path before its notify |
| `KimiRendezvous.AnswerIsThePeers` | crates/brehon-adapter-kimi/src/kimi.rs:1257-1332 | an answer returned by a wait is the peer's answer to that prompt |
| `KimiRendezvous.ResponseGoesToOnePlace` | crates/brehon-adapter-kimi/src/kimi.rs:1384-1427 | a response handled by the reader went once, either to the accepting send or to the cache and then the send never saw it, wherever the acceptance timeout fell |
| `KimiRendezvous.CompletionsNeverOutnumberSends` | crates/brehon-adapter-kimi/src/kimi.rs:1511-1528 | turn completions never outnumber sends; they stand for disjoint non-empty sets of sent prompts, none of them still active |
| `GeminiRouting.StepKeepsPlace` | crates/brehon-adapter-gemini/src/gemini.rs:385-448 | every step of router, waiter, send and kill keeps the recorded place of each result equal to where it physically is |
| `GeminiRouting.ResultInOnePlace` | crates/brehon-adapter-gemini/src/gemini.rs:526-556 | at every moment a routed result is in exactly one of: its router, one waiter's channel, one waiter's hands, the cache; or nowhere after eviction, a stale pop or a kill's clear |
| `GeminiRouting.ResultGoesToOneWaiter` | crates/brehon-adapter-gemini/src/gemini.rs:385-448 | a waiter returns only the result routed for its prompt, and no second waiter returns it |
| `GeminiRouting.CacheStaysBounded` | crates/brehon-adapter-gemini/src/gemini.rs:344-350 | in every run the result map holds at most 64 entries, through kill's separate clears of map and queue |
| `GeminiRouting.WokenIffInTime` | crates/brehon-adapter-gemini/src/gemini.rs:385-448 | in every run a waiter with an open channel has a result to come through it if and only if it registered before the lookup for its prompt |
| `GeminiRouting.ToComeArrives` | crates/brehon-adapter-gemini/src/gemini.rs:526-556 | what is to come arrives: the lookup takes that waiter's completer and the send fills its channel |
| `GeminiRouting.LateNeverServed` | crates/brehon-adapter-gemini/src/gemini.rs:526-556 | a waiter that registered after the lookup never gets a result through its channel |
| `GeminiRouting.LateWaiterIsStranded` | crates/brehon-adapter-gemini/src/gemini.rs:526-556 | a run in which a waiter registers between lookup and caching and parks with its result cached |
| `AcpSession.StepInv` | crates/brehon-acp/src/session.rs:329-422 | every lock scope of send, wait, cancel, reader and shutdown keeps the invariant |
| `AcpSession.SendersWithinSlot` | crates/brehon-acp/src/session.rs:1237-1254 | until shutdown at most one sender is registered; it is the slot's prompt exactly while the reader is not at its answer, and otherwise the slot is empty |
| `AcpSession.OneOutstanding` | crates/brehon-acp/src/session.rs:1610-1625 | until shutdown at most one written prompt is neither answered nor released by a cancellation, and it holds the slot |
| `AcpSession.SuccessorIntact` | crates/brehon-acp/src/session.rs:542-574 | an outstanding prompt keeps slot, sender, open channel and token attribution through all late answers, clean-ups, cancellations and timeouts of other prompts |
| `AcpSession.AnswerReachesWaiter` | crates/brehon-acp/src/session.rs:1219-1254 | once handled, the first answer to a prompt not cancelled or timed out is in that prompt's channel |
| `AcpSession.VerdictIsTrue` | crates/brehon-acp/src/session.rs:451-495 | a wait returns only its prompt's first answer, and reports a dead process only after a cancellation, the end of the reader or a shutdown |
| `AcpSession.ShutdownLeavesNothing` | crates/brehon-acp/src/session.rs:930-991 | a finished shutdown leaves slot, attribution, senders and receivers empty once the sends that raced it are over |
| `TokenAccounting.StepInv` | crates/brehon-acp/src/session.rs:1014-1095 | every step of attribution, usage update and settlement keeps the books balanced |
| `TokenAccounting.NeverOvercharged` | crates/brehon-acp/src/session.rs:993-1095 | in every run the total charged is at most the usage maximum plus the sum of result tokens |
| `TokenAccounting.ChargesBalance` | crates/brehon-acp/src/session.rs:1043-1085 | charges are attributed usage plus top-ups, and usage maximum and results split exactly into attributed and lost, settled and missed |
| `TokenAccounting.ChargedWithinTwice` | crates/brehon-acp/src/session.rs:993-1085 | with nothing lost the total charged is at least `session_tokens_used`, and while the result sum fits in 64 bits at most twice that |
| `TokenAccounting.UpperBoundIff` | crates/brehon-acp/src/session.rs:993-1025 | where only results are charged, the charges are their sum, and are within twice `session_tokens_used` if and only if that sum fits in 64 bits |
| `TokenAccounting.EveryLargerSumBreaks` | crates/brehon-acp/src/session.rs:1019-1023 | for every result sum above 2^64 - 1 a run that breaks the upper bound |
| `TokenAccounting.SettlementIsExact` | crates/brehon-acp/src/session.rs:1060-1085 | a prompt settled with its attribution intact was charged exactly the larger of the usage rise during it and its result tokens |
| `TokenAccounting.AdditionNeverSaturates` | crates/brehon-acp/src/session.rs:1043-1058 | the saturating addition to the attributed amount never saturates in any run |
| `TokenAccounting.WrapHidesTokens` | crates/brehon-acp/src/session.rs:1019-1023 | a run whose result counter wraps to 0 while 2^64 tokens were charged |
| `SnapshotWriter.SessionSnapshotState.ClaimPersist` | crates/brehon-adapter-gemini/src/stability_runtime.rs:67-74 | a persist claim takes the next version, or nothing once closed |
| `SnapshotWriter.SessionSnapshotState.ClaimClear` | crates/brehon-adapter-gemini/src/stability_runtime.rs:76-81 | a clear claim closes the session and takes the next version |
| `SnapshotWriter.SessionSnapshotState.RunPersist` | crates/brehon-adapter-gemini/src/stability_runtime.rs:83-96 | a run writes only for the newest version of an open session |
| `SnapshotWriter.SessionSnapshotState.RunClear` | crates/brehon-adapter-gemini/src/stability_runtime.rs:98-106 | a clear removes the file only for the newest version |
| `SnapshotWriter.SessionSnapshotState.PersistNow` | crates/brehon-adapter-gemini/src/stability_runtime.rs:108-114 | the synchronous form puts its counters on disk unless closed, at saturation too |
| `SnapshotWriter.SessionSnapshotState.ClearNow` | crates/brehon-adapter-gemini/src/stability_runtime.rs:116-120 | the synchronous clear closes the session and leaves no file |
| `SnapshotWriter.Converges` | crates/brehon-adapter-gemini/src/stability_runtime.rs:67-138 | for any interleaving of claims and any order of runs, once all ran the disk is empty if ever cleared and else holds the last claim's counters, up to 2^64 - 1 claims |
| `SnapshotWriter.ClearIsFinal` | crates/brehon-adapter-gemini/src/stability_runtime.rs:76-106 | from a clear's claim on nothing is written, an absent file stays absent, and it is absent once no newest clear is queued, at saturation too |
| `SnapshotWriter.WritesIncrease` | crates/brehon-adapter-gemini/src/stability_runtime.rs:83-96 | versions that reach the disk strictly increase, below saturation |
| `SnapshotWriter.SaturationLosesTheNewest` | crates/brehon-adapter-gemini/src/stability_runtime.rs:67-74 | beyond 2^64 - 1 claims, for every number of them some order of runs leaves an older claim on disk |
| `Permissions.PermissionManager.RegisterRequest` | crates/brehon-acp/src/permissions.rs:128-145 | registering forgets an expiry of the id, replaces an older entry and opens a channel |
| `Permissions.PermissionManager.Resolve` | crates/brehon-acp/src/permissions.rs:147-178 | the new state and the reply in all cases: invalid, unknown, expired, receiver gone, resolved |
| `Permissions.PermissionManager.ExpireRequest` | crates/brehon-acp/src/permissions.rs:180-185 | a pending id is dropped and remembered, any other left alone |
| `Permissions.PermissionManager.RememberExpired` | crates/brehon-acp/src/permissions.rs:99-109 | an id moves to the back of a queue of at most 256 |
| `Permissions.BookStaysOk` | crates/brehon-acp/src/permissions.rs:99-185 | under all operations pending and expired stay disjoint, the queue duplicate-free and at most 256 long |
| `Permissions.ForgottenExactlyBehindLimit` | crates/brehon-acp/src/permissions.rs:99-109 | remembering another id makes an id forgotten if and only if 256 distinct ids then stand behind it |
| `Permissions.ExpiredStaysExpired` | crates/brehon-acp/src/permissions.rs:147-185 | an id expired by a timeout or by a resolve that found its receiver gone, and not registered again, keeps resolving to Expired while fewer than 256 distinct ids are remembered after it |
| `PermissionMediation.AnswerCarriesDecision` | crates/brehon-acp/src/session.rs:1497-1543 | for every option list the answer names the first option of the decision's own kind, never one of the other kind, and is cancelled exactly if there is none |
| `PermissionMediation.KindsAreDisjoint` | crates/brehon-acp/src/session.rs:1497-1543 | no option kind counts as both allowing and denying |
| `PermissionMediation.DecisionIsExact` | crates/brehon-acp/src/session.rs:1333-1440 | in every run a mediation that asked ends with the decision `resolve` reported as Resolved if its event was handed over, and with the timeout decision otherwise |
| `PermissionMediation.ResolvedHonouredIff` | crates/brehon-acp/src/session.rs:1421-1440 | a Resolved decision that is not the timeout decision is honoured if and only if the event handoff succeeded |
| `PermissionMediation.RaceHasOneWinner` | crates/brehon-acp/src/session.rs:1333-1440 | if no resolve comes before its event was delivered, a mediation that asked ends with the decision reported as Resolved, and with the timeout decision if none was |
| `PermissionMediation.EarlyResolveIsOverruled` | crates/brehon-acp/src/session.rs:1333-1440 | a run in which a resolve before the event's delivery is reported as Resolved and overruled |
| `CodexTurns.StepInv` | crates/brehon-adapter-codex/src/codex.rs:377-523 | every step of send, wait, clean-up and completion keeps the invariant, unless a nameless completion comes while the active prompt's turn is unrecorded |
| `CodexTurns.ActiveTurnIsThePrompts` | crates/brehon-adapter-codex/src/codex.rs:436-439 | in every run without such a completion the active turn id belongs to the active prompt |
| `CodexTurns.ResolvedAndBilledByOwnTurn` | crates/brehon-adapter-codex/src/codex.rs:1005-1048 | a prompt is resolved at most once, by a turn of its own, and billed that completion's tokens exactly if it has a task and they are not 0 |
| `CodexTurns.BillsAreResolved` | crates/brehon-adapter-codex/src/codex.rs:917-939 | nothing is billed to a prompt that no completion resolved |
| `CodexTurns.CurrentPromptIntact` | crates/brehon-adapter-codex/src/codex.rs:488-501 | an unresolved prompt whose wait has not timed out keeps slot, turn id, sender and attribution, whatever earlier turns complete |
| `CodexTurns.CompletionHandledIffRecorded` | crates/brehon-adapter-codex/src/codex.rs:956-962 | a named completion has an effect if and only if its turn is recorded, and then resolves that turn's prompt |
| `CodexTurns.NamelessResolvesIffUnrecorded` | crates/brehon-adapter-codex/src/codex.rs:956-962 | after every run without such a completion, a completion without turn id resolves the active prompt if and only if no turn is recorded, and that prompt's send has not returned |
| `CodexTurns.NamelessCompletionMisroutes` | crates/brehon-adapter-codex/src/codex.rs:1016-1047 | a run in which such a completion of a timed-out turn resolves the next prompt |
| `CodexLaunch.SetNestedSucceedsIff` | crates/brehon-adapter-codex/src/codex.rs:1514-1534 | a dotted write panics if and only if a value other than an object lies on its path |
| `CodexLaunch.SetNestedReads` | crates/brehon-adapter-codex/src/codex.rs:1514-1534 | what every path reads after a write: the new value at and below it, objects above it, and the old value elsewhere |
| `CodexLaunch.SetNestedReadBack` | crates/brehon-adapter-codex/src/codex.rs:1514-1534 | the written value reads back |
| `CodexLaunch.LastWriteReadsBack` | crates/brehon-adapter-codex/src/codex.rs:1457-1489 | after a whole series of overrides each one reads back if no later path is comparable with its own |
| `CodexLaunch.UnrelatedKept` | crates/brehon-adapter-codex/src/codex.rs:1457-1489 | a path comparable with no override keeps its value through the series |
| `CodexLaunch.DisjointWritesNeverPanic` | crates/brehon-adapter-codex/src/codex.rs:1514-1534 | overrides none of whose paths lies strictly below another never panic |
| `CodexLaunch.WriteBelowScalarPanics` | crates/brehon-adapter-codex/src/codex.rs:1528-1532 | after any value that is not an object was written, a write below it panics |
| `CodexLaunch.NestedOverridePanics` | crates/brehon-adapter-codex/src/codex.rs:1457-1489 | the two-override command line above panics, for all parts and values of which the first is not a JSON object |
| `CodexLaunch.JoinedDotsSplit` | crates/brehon-adapter-codex/src/codex.rs:1519-1519 | dot-free parts are recovered from their dotted key |
| `CodexLaunch.SplitDotsJoins` | crates/brehon-adapter-codex/src/codex.rs:1519-1519 | the parts of a dotted key are dot-free and join to the key |
| `CodexLaunch.SplitOnce` | crates/brehon-adapter-codex/src/codex.rs:1458-1460 | an override splits at its first equals sign, and not at all if it has none |
| `CodexLaunch.ExtractLaunchConfig` | crates/brehon-adapter-codex/src/codex.rs:1336-1386 | for every argument list the loop yields the configuration the flags describe, and panics exactly if one of the nested writes does |
| `CodexLaunch.DescribesOne` | crates/brehon-adapter-codex/src/codex.rs:1336-1386 | that description (last flag wins per setting, turn policy is the thread's sandbox, overrides in order) fits one configuration only |
| `CodexLaunch.FlagsConcat` | crates/brehon-adapter-codex/src/codex.rs:1341-1383 | arguments without a flag waiting for its value parse independently of what follows |
| `CodexLaunch.DanglingFlagIgnored` | crates/brehon-adapter-codex/src/codex.rs:1349-1380 | a flag without its value at the end changes nothing |
| `CodexLaunch.FinalSandboxWins` | crates/brehon-adapter-codex/src/codex.rs:1452-1455 | a sandbox flag at the end decides thread sandbox and turn policy, whatever came before |
| `OpenAiHistory.TrimmedIncrementally` | crates/brehon-adapter-openai/src/openai_compatible.rs:628-651 | trimming after every append equals trimming the full log once, with or without a system message |
| `OpenAiHistory.Session.TrimMessages` | crates/brehon-adapter-openai/src/openai_compatible.rs:634-651 | the vector becomes its trimmed form in place |
| `OpenAiHistory.Session.AppendMessage` | crates/brehon-adapter-openai/src/openai_compatible.rs:628-632 | an append extends the log and keeps the vector its trimmed form |
| `OpenAiHistory.Session.RunPrompt` | crates/brehon-adapter-openai/src/openai_compatible.rs:490-626 | a turn, aborted after any number of messages or not at all, appends the user's message and the rounds its responses make, or the part it got to; what was appended stands as the outcome says: answered with the trimmed texts, out of 24 rounds, awaiting an answer, or cut off within a well-formed turn |
| `OpenAiHistory.FollowsIffBeginsTurn` | crates/brehon-adapter-openai/src/openai_compatible.rs:518-623 | the turn automaton accepts exactly the beginnings of well-formed turns: user, then up to 24 rounds of assistant and replies in call order |
| `OpenAiHistory.PromptsAppendOneBlock` | crates/brehon-adapter-openai/src/openai_compatible.rs:490-626 | in every run, with aborts and failures anywhere, each prompt's messages are one contiguous block of the log that begins a well-formed turn |
| `OpenAiHistory.HistoryIsSystemAndTail` | crates/brehon-adapter-openai/src/openai_compatible.rs:628-651 | at every moment the history is the system message and the whole log, or its last 59 entries |
| `TomlUpsert.UpsertAssignment` | crates/brehon-adapter-kimi/src/kimi.rs:345-367 | the loop replaces the first assignment of the key or puts one first, and keeps the final line ending |
| `TomlUpsert.UpsertAssignmentInTable` | crates/brehon-adapter-kimi/src/kimi.rs:369-404 | the loops replace the first assignment in the table, or add one at its end, or fall back to the top level |
| `TomlUpsert.UpsertAssignmentInTableOrCreate` | crates/brehon-adapter-kimi/src/kimi.rs:406-427 | the same, appending the table if its header is missing |
| `TomlUpsert.TableFrame` | crates/brehon-adapter-kimi/src/kimi.rs:381-403 | with its header present a table upsert changes no line outside that table's body, and in it only the one assignment |
| `TomlUpsert.UpsertFrame` | crates/brehon-adapter-kimi/src/kimi.rs:345-361 | an upsert leaves every line that does not assign its key as it is and in order |
| `TomlUpsert.UpsertSets` | crates/brehon-adapter-kimi/src/kimi.rs:345-361 | an upserted assignment is the first of its key, and upserting it again changes no line |
| `TomlUpsert.PutInTableSets` | crates/brehon-adapter-kimi/src/kimi.rs:377-403 | the same within a table |
| `TomlPatch.StepSets` | crates/brehon-adapter-kimi/src/kimi.rs:345-427 | after any of the three upserts, on any text, its setting reads back |
| `TomlPatch.StepKeepsSet` | crates/brehon-adapter-kimi/src/kimi.rs:345-427 | an upsert leaves the settings of other keys reading as before |
| `TomlPatch.PatchSets` | crates/brehon-adapter-kimi/src/kimi.rs:469-515 | after any chain of independent upserts, on any text, all settings read back |
| `TomlPatch.SecondPassIff` | crates/brehon-adapter-kimi/src/kimi.rs:469-515 | a second pass of any non-empty such chain changes nothing if and only if the first left no `\r\n` |
| `TomlEndings.EditStep` | crates/brehon-adapter-kimi/src/kimi.rs:345-404 | the condition on a text for a chain that begins with a rewrite is that for the rest of the chain on the rewritten text, which has one carriage return less per terminated line |
| `TomlEndings.CreateStep` | crates/brehon-adapter-kimi/src/kimi.rs:416-426 | the same for a chain that begins by creating a table, which drops no carriage return but terminates the last line |
| `TomlEndings.PatchedCleanIff` | crates/brehon-adapter-kimi/src/kimi.rs:469-515 | the patched text has no `\r\n` if and only if the input fits: each kept terminated line has fewer trailing carriage returns than the chain has rewrites, and an unterminated last line no more than rewrites follow its termination; for text that is not blank, or a chain that begins with a top-level upsert |
| `TomlEndings.SecondPassExactly` | crates/brehon-adapter-kimi/src/kimi.rs:469-515 | under the same proviso, a second pass changes nothing if and only if the input fits |
| `TomlEndings.CleanSecondPass` | crates/brehon-adapter-kimi/src/kimi.rs:469-515 | so a chain that rewrites at all is idempotent on texts whose lines end with `\n` or a single `\r\n` |
| `TomlEndings.PiledCrsNotIdempotent` | crates/brehon-adapter-kimi/src/kimi.rs:345-367 | and not idempotent if a kept terminated line ends with as many carriage returns as there are rewrites |
| `TomlText.LinesOfRender` | crates/brehon-adapter-kimi/src/kimi.rs:362-366 | joined lines read back as themselves, but for one trailing `\r` per terminated line |
| `TomlText.NormShortens` | crates/brehon-adapter-kimi/src/kimi.rs:349-366 | rewriting a text's own lines never lengthens it and changes it exactly if it contains `\r\n` |
| `KimiConfig.QuoteParseRoundTrip` | crates/brehon-adapter-kimi/src/kimi.rs:314-325 | parsing a quoted assignment returns the value, for every string, if and only if the key is not empty and does not start with white space |
| `KimiConfig.UnescapeInverts` | crates/brehon-adapter-kimi/src/kimi.rs:324-324 | the two unescaping passes undo the two escaping ones on every string |
| `KimiConfig.SelectedKeyIsOneLine` | crates/brehon-adapter-kimi/src/kimi.rs:517-532 | a model key selected from a configuration never spans lines |
| `KimiConfig.PatchExistingConfig` | crates/brehon-adapter-kimi/src/kimi.rs:469-515 | the patch is the chain of its six or seven upserts |
| `KimiConfig.SettingsReadBack` | crates/brehon-adapter-kimi/src/kimi.rs:469-515 | after the patch, of any text with a one-line key, every setting is in place and the default model reads back as the key |
| `KimiConfig.SettingsInPlace` | crates/brehon-adapter-kimi/src/kimi.rs:469-515 | each setting's line and table after the patch, with the constants |
| `KimiConfig.PatchIdempotentIff` | crates/brehon-adapter-kimi/src/kimi.rs:469-515 | patching again changes nothing if and only if each terminated line of the input that no upsert replaces ends with fewer carriage returns than there are rewrites, and an unterminated last line fits |
| `KimiConfig.PatchEdits` | crates/brehon-adapter-kimi/src/kimi.rs:482-513 | the rewrites are four, one more for a reasoning effort, and one each for a present `[mcp.client]` and `[loop_control]` |
| `KimiConfig.SelectedPatchIdempotent` | crates/brehon-adapter-kimi/src/kimi.rs:574-585 | with the key selected from the configuration itself, patching is idempotent and the key reads back |
| `KimiConfig.PatchNotAlwaysIdempotent` | crates/brehon-adapter-kimi/src/kimi.rs:469-515 | eight carriage returns and a line feed: a text whose second patch differs from its first |

## Left out

- Processes, sockets, websockets, HTTP, file contents on disk and log tailing: they appear as events (an answer arrives, a write fails, a timeout fires, the peer closes).
- JSON decoding, event normalisation, token-field extraction and the inference of a prompt's task: decoded messages and task ids are inputs.
- SetNested: the source walks a mutable reference into nested maps; the model rebuilds the maps on the way back, so update in place is not captured.
- RunPrompt: an abort between the last append and the return is not told apart from none; events emitted on the way are left out.
- CodexTurns: a session is modelled until its reader leaves its loop or a kill begins.
- AcpSession: one shutdown per session; the amounts attributed are in `TokenAccounting`, which leaves the slot out.
- SnapshotWriter: one session; the map from session keys to their states is not modelled.
- PatchIdempotentIff: a model key with a line feed, which the adapter never selects (`SelectedKeyIsOneLine`), is excluded.
- PatchedCleanIff: a chain that begins by creating a table in a text of nothing but white space is excluded; the adapter's chain does not.
- A wake-up guarantee for Gemini waiters, waking Kimi waiters on kill, and delivery of a Codex completion that precedes its recorded turn: the code provides none of them.
- The permission policy lookup, capability conversion, spawn and environment builders, the gateway, terminals and transcripts: plumbing with only easy properties.
- The Copilot, Junie, Agy and Claude adapters, and the older OpenAI copy inside the ACP crate: weaker variants of what is modelled, or not part of the module tree.
