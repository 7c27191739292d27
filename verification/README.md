# AgentSlot Session model

A Dafny model of AgentSlot's durable Session aggregate, the Runtime that drives it across crashes, and the
self-contained algorithms around them, with proofs of what they promise.

**The aggregate.** A Session is a value of History facts, Queue, tool journal, extension journal, contexts and Run state
(`SessionTypes`). `Transactions` is one commit: typed changes guarded by searches over History. `HistoryChecker` is the
independent one-pass checker; `Recovery` repairs an aggregate after a crash, for every iteration order of the map it
ranges over. `AggregateInvariant`, `RecoveryKeepsInvariant` and `SessionRuns` prove that every run of creation, Runtime
commits, crashes and recoveries keeps the whole invariant the checker stands for. The Store's guards alone do not imply
it: `GuardGaps` gives the exact condition for each gap and a concrete commit that falls into it. `RuntimeCommits` is the
commits the Runtime builds. `ChangeEffects`, `StoreGuards`, `HistoryRules`, `RecoveryEffects`, `BuilderEffects` and
`QueueTakes` say, by message IDs, facts and positions alone, what each change does and when it is refused, which Histories
are accepted, what recovery writes, and what the Runtime's commits leave behind. `ToolRounds` and `RuntimeLoop` run its loop around the aggregate, restore and failures included,
and derive from the place of the loop that every commit has the shape the invariant needs and keeps the conversation in
order.

**The protocol on top.** `ModelProtocol` and `ProtocolRules` (which inputs the model takes), `AtMostOnce` (nothing with an unknown outcome is replayed, over arbitrary accepted commits),
`ProtocolHistory` (what the model sees always follows the model protocol, across commits, recovery and forks),
`HookContexts` (each hook invocation contributes at most once and is shown to one Step), `InputGates`, `HookSettling`,
`JournalPasses`, `GatedInput` and `GatedInputCases` (gated inputs take effect all or nothing), `CompletionGates` (exactly
which completion occurrences settle), `RunLimits` and `LimitTraces` (durable limits under concurrent callbacks and failing
commits).

**Fork and storage.** `ForkRenaming` and `Forking` (a fork is an injective renaming that the Store's own checker
accepts), `SessionStore` and `DurableCommits` (idempotent commits over persistence failures and crashes).

**Algorithms.** `HistoryPaging`, `SessionList`, `ModuleOrder` and `ModuleAssembly`, `TailCompactor`, `EventStream`,
`RuntimeRegistry`.

Conventions: identifiers are natural numbers with 0 for the empty string; timestamps are natural numbers with 0 for the
zero time; token sums are unbounded integers; digests and fingerprints are idealised as the values they are taken of;
message parts, JSON and configuration settings are opaque numbers. Map iteration is a nondeterministic choice. Clocks, new
IDs, component answers, persistence failures and crashes are parameters or nondeterministic steps.

Six promises are false as they stand, and are stated exactly instead:
- "At most one unclosed Runtime exists per Session" fails when a resume runs between the moment create persists the
  Session and the moment add accepts its Runtime (`RuntimeRegistry.TwoRuntimesAtOnce`); `StepKeepsOne` says which steps
  break it.
- "Every completion occurrence settles all its entries" fails when it is aborted after a gate was marked together with
  the answer before it, and when a Cancel or Close is seen under the lock; `CompletionGates.RunGates` says exactly when.
- "An accepted input takes effect" fails when the Runtime is closing or the target changed
  (`GatedInputCases.ClosedAfterAccept`), and an edit's commit is refused while an earlier input for the message waits for
  its last commit, which happens after that commit failed (`OlderContextBlocks`); `GatedInput.Submit` says exactly when.
- "Limit counters are the durable counts" fails after a commit that is durable and unacknowledged, and attempts may then
  pass their maximum (`LimitTraces.UnheardAttemptPasses`); `TracesFollow` says by how much.
- "An equal retry is replayed" fails for the file Store once a document does not read back
  (`DurableCommits.LonePendingUnreadable`); `RetriesAgree` gives the condition, which the Runtime's commits always meet.
- The Store's guards admit commits its checker refuses (`GuardGaps`); the invariant is therefore proved for the commits
  the Runtime builds, and `RuntimeLoop` derives their shape from the place of the loop.

Check everything with `dafny verify dfyconfig.toml`.

## Model

| member | source | states |
|---|---|---|
| `ModelProtocol.ValidateInputs` | model/contracts.go:173-227 | The nested index loops accept exactly the input sequences a one-input-at-a-time automaton reads to a settled end, prompt and error cases included; `ProtocolRules.ProtocolExact` says which these are. |
| `ModelProtocol.ReadCalls` | model/contracts.go:204-213 | The inner loop over the calls of one assistant message takes the longest run of fitting, unseen calls, or proves that no accepted sequence continues this way. |
| `ModelProtocol.ReadResults` | model/contracts.go:214-224 | The inner loop over results ends with every call of the exchange answered exactly once, or proves that the sequence is refused. |
| `ModelProtocol.RefusalIsFinal` | model/contracts.go:173-227 | A refused prefix has no accepted continuation. |
| `ProtocolRules.ProtocolExact` | model/contracts.go:173-227 | By positions alone: inputs are accepted if and only if a prompt stands only in front and is valid, each message is new and stands where every earlier call is answered, each call is new and stands directly behind its own assistant message or further calls of it, each result is the first for a call made since the last message, and no call is left unanswered. |
| `ExtensionJournal.TransitionAdvances` | session/extension_journal.go:299-361 | Every accepted update strictly raises the rank of an invocation (at most 4); a prepared one cannot succeed or become unknown without having been pending; a pending one ends with its effect open and its start time kept; terminal status and outcome never change; only answered ones take effect; a context waits only if it waited, with the same inputs; applied, discarded and consumed are irrevocable. |
| `ExtensionJournal.ApplyExtensionKeeps` | session/extension_journal.go:267-297 | An accepted append or update keeps sequences contiguous, invocation IDs unique and entries valid, and moves every entry only forward. |
| `ExtensionJournal.UpdatesKeepJournal` | session/extension_journal.go:267-297 | The same over any accepted run of updates. |
| `ExtensionJournal.AtMostFourUpdates` | session/extension_journal.go:299-361 | Over any accepted run of updates an invocation is updated at most four times after being appended. |
| `ExtensionJournal.RecoverEntryIsLegal` | session/memory_store.go:845-859 | Recovery's in-place rewrite of a pending invocation is itself a legal transition to outcome_unknown, and leaves every other entry alone. |
| `HistoryChecker.CheckFact` | session/memory_store.go:1118-1223 | One turn of the checking loop: the early exits are exactly the acceptance rule, and the maps become those of the longer prefix. |
| `HistoryChecker.CheckJournal` | session/memory_store.go:1224-1253 | The journal pass accepts exactly unique entries that match History, with an unfinished entry for every unanswered call. |
| `HistoryChecker.ValidateHistoryConsistency` | session/memory_store.go:1102-1254 | The whole one-pass checker decides exactly `Consistent`: every fact accepted by the state of the facts before it, and the journal in step with History. |
| `HistoryChecker.AcceptedPrefix` | session/memory_store.go:1102-1226 | Every prefix of an accepted History is accepted. |
| `HistoryRules.FollowExact` | session/memory_store.go:1118-1223 | Without the checker's maps: a fact is accepted behind an accepted History if and only if no earlier fact rules it out (same identity, its Run ended, stopped or its trigger admitted), the fact it needs stands before it, with the same Run, Step and configuration, and a stop tells the tokens, attempts or calls counted so far. |
| `HistoryRules.AcceptedExact` | session/memory_store.go:1102-1223 | A History is accepted if and only if every fact is valid and may stand behind the facts before it. |
| `HistoryRules.ConsistentExact` | session/memory_store.go:1102-1254 | The whole check in terms of facts and entries: facts in order, each entry's call recorded, unfinished entries without result, ended ones with the result History has, and an unfinished entry for every call without one. |
| `Transactions.ApplyChanges` | session/memory_store.go:384-569 | The validation passes, the change loop and the closing checks succeed exactly when the commit relation `Commits` has an outcome, and the working copy is that outcome. What a single change does and when it is refused is said by `ChangeEffects` and `StoreGuards`. |
| `Transactions.ApplyConcat` | session/memory_store.go:396-560 | Applying a concatenation is applying its parts in order, errors included. |
| `Transactions.QueueIndex` | session/memory_store.go:1321-1328 | The first position of a message in the Queue, or its length. |
| `Transactions.JournalIndex` | session/memory_store.go:1341-1352 | The first position of a call in the tool journal, or its length. |
| `ChangeEffects.EnqueueExact` | session/memory_store.go:460-467 | An unclaimed item is queued if and only if no item of its message is; it stands last and nothing else changes. |
| `ChangeEffects.ClaimExact` | session/memory_store.go:468-479 | Claiming succeeds if and only if the message is queued, unclaimed, and the claiming Run is active; then that item is claimed by it and every other item is as it was. |
| `ChangeEffects.ConsumeExact` | session/memory_store.go:480-488 | Consuming succeeds if and only if the item of that message is claimed by this Run; then the Queue is the old one without that item, order kept. |
| `ChangeEffects.DeleteExact` | session/memory_store.go:499-507 | Deleting succeeds if and only if the message is queued and unclaimed; then the Queue is the old one without that item and no other, order kept. |
| `ChangeEffects.EditExact` | session/memory_store.go:489-498 | Editing gives the unclaimed item of that message exactly the new parts and delivery; every other field and item is as it was. |
| `ChangeEffects.ReclassifyExact` | session/memory_store.go:508-516 | Reclassifying gives the unclaimed item of that message exactly the new delivery. |
| `ChangeEffects.ContextExact` | session/memory_store.go:517-542 | A context is accepted if and only if it is valid, the next version, made from this revision and all of History and matched to its Run; with `retain` the replaced context joins the retained ones, without it the retained ones are dropped. |
| `ChangeEffects.SelectionExact` | session/memory_store.go:452-547 | A configuration is replaced if and only if no Run is active; the event and the fact that tell of it keep the previous and the current one, the event at the next revision. |
| `ChangeEffects.RunStateExact` | session/memory_store.go:600-618 | A Run becomes active only in an idle Session and idle only when it is the active one; nothing else changes. |
| `ChangeEffects.FirstEntryExact` | session/memory_store.go:797-810 | For a call without an entry, one is appended if and only if it is valid, unfinished and of the active Run. |
| `ChangeEffects.NextEntryExact` | session/memory_store.go:797-841 | An entry changes only its status and, at its end, its result, if and only if the update is valid, of the same Run, Step and call, and moves a prepared entry on or ends a pending one; every other entry is as it was. |
| `StoreGuards.AdmittedExact` | session/memory_store.go:389-459 | In a good aggregate the Store admits a fact if and only if it is valid, the checker accepts it next, and it belongs to the active Run where it has to; limit facts are told apart by LimitExact. |
| `StoreGuards.LimitExact` | session/memory_store.go:721-758 | A limit fact is admitted if and only if it is the first stop of the active Run, tells its durable count, and names an operation this Run has not admitted. |
| `StoreGuards.FactWritten` | session/history.go:32-95 | An admitted fact is appended alone, numbered and named next, in its own Run and Step, for a result those of its call, with no origin. |
| `StoreGuards.PairingExact` | session/memory_store.go:1017-1100 | The tool part of a commit is admitted if and only if every call comes with its unfinished entry, every result with the ended entry holding it, every prepared entry with its call, every ended one with its result, and a message without parts with a call. |
| `StoreGuards.SelectionPairingExact` | session/memory_store.go:571-598 | A commit selects at most one configuration, and then together with exactly one event that tells the old and the new one. |
| `SearchAgreement.MessageSearch` | session/memory_store.go:1280-1287 | On an accepted History the Store's linear search finds the same message as the checker's map. |
| `SearchAgreement.CallSearch` | session/memory_store.go:1294-1301 | On an accepted History the Store's linear search finds the same tool call as the checker's map. |
| `SearchAgreement.ResultSearch` | session/memory_store.go:1312-1319 | On an accepted History the Store's linear search finds the same tool result as the checker's map. |
| `SearchAgreement.RunSearch` | session/memory_store.go:781-795 | The search for start and terminal facts of a Run agrees with the checker's maps. |
| `SearchAgreement.AttemptSearch` | session/memory_store.go:654-670 | The search for an attempt's start and terminal facts agrees with the checker's maps. |
| `SearchAgreement.StopSearch` | session/memory_store.go:690-735 | A Run carries a budget or limit fact for the search exactly when it does for the checker. |
| `SearchAgreement.CountSearch` | session/memory_store.go:690-756 | Tokens, attempts and calls counted by searching equal the checker's running counts. |
| `SearchAgreement.ContributionSearch` | session/memory_store.go:760-779 | The duplicate-contribution search agrees with the checker's key set. |
| `Recovery.CollectAttempts` | session/memory_store.go:861-872 | One pass yields exactly the start facts and the ended attempts. |
| `Recovery.CloseOpenAttempts` | session/memory_store.go:873-885 | For every iteration order of the map: each open attempt is ended exactly once, and the result is the function of that order. |
| `Recovery.SettleJournal` | session/memory_store.go:886-906 | The journal loop gives every pending call an unknown result in History and at its entry, and reports prepared work of the Run. |
| `Recovery.ReleaseItems` | session/memory_store.go:931-947 | The queue loop releases exactly the interrupted Run's claims and holds every steer; `changed` is exact. |
| `Recovery.MarkUnknown` | session/memory_store.go:845-859 | The extension loop rewrites exactly the pending entries; `changed` is exact. |
| `Recovery.RecoverAggregate` | session/memory_store.go:843-948 | The whole repair equals `Recovered` for the map order it happened to take, and `changed` holds exactly when something differs. |
| `RecoveryEffects.TerminationExact` | session/memory_store.go:950-965 | The reason an interrupted Run is given is that of its last budget or limit fact, and interruption by the Runtime without one. |
| `RecoveryEffects.RecoveryWrites` | session/memory_store.go:843-948 | For every order: what recovery appends are unknown ends of attempts that were open, unknown results of calls that were pending, and the end of the active Run with that reason, and nothing else. |
| `AggregateInvariant.OpKeepsCore` | session/memory_store.go:384-569 | Every group of changes the Runtime writes together keeps the full aggregate invariant, although the Store's guards search and the checker keeps maps. |
| `AggregateInvariant.StartKeepsCore` | session/memory_store.go:600-651 | Running paired with a start fact keeps the invariant; the active Run is live in History. |
| `AggregateInvariant.FinishKeepsCore` | session/memory_store.go:600-651 | A terminal fact paired with idle keeps the invariant when no call is unfinished. |
| `AggregateInvariant.PrepareKeepsCore` | session/memory_store.go:797-841 | A call appended together with its prepared entry keeps History and journal in step. |
| `AggregateInvariant.SettleKeepsCore` | session/memory_store.go:797-841 | A result appended together with its terminal entry keeps them in step. |
| `AggregateInvariant.MarkKeepsCore` | session/memory_store.go:797-841 | Prepared to pending on an existing entry keeps the invariant. |
| `AggregateInvariant.AttemptKeepsCore` | session/memory_store.go:653-687 | An admitted attempt fact is accepted by the checker. |
| `AggregateInvariant.BudgetKeepsCore` | session/memory_store.go:689-719 | An admitted budget fact is accepted by the checker. |
| `AggregateInvariant.LimitKeepsCore` | session/memory_store.go:721-758 | An admitted limit fact with a trigger new to the Session is accepted by the checker. |
| `AggregateInvariant.ContextKeepsCore` | session/memory_store.go:967-1015 | Replacing the context keeps contexts valid, versions growing and matched to their Run. |
| `AggregateInvariant.QueueKeepsCore` | session/memory_store.go:460-516 | Every queue change keeps message IDs unique and items valid. |
| `RecoveryKeepsInvariant.RepairedOk` | session/memory_store.go:843-905 | For every order: the repairs keep the invariant, only append, leave nothing pending and no attempt open. |
| `RecoveryKeepsInvariant.InterruptKeepsCore` | session/memory_store.go:916-930 | Ending the active Run appends exactly one terminal fact with the frozen configuration and leaves a good idle aggregate. |
| `RecoveryKeepsInvariant.RecoveredOk` | session/memory_store.go:843-948 | For every order: the invariant holds, History only grows, nothing is pending in either journal, one terminal per attempt, and the Session is idle with its Run ended once, claims released and steers held, or running with resumable work. |
| `RecoveryKeepsInvariant.SettledIsFixpoint` | session/memory_store.go:843-948 | An aggregate with nothing left to repair is unchanged by recovery. |
| `RecoveryKeepsInvariant.RecoverKeepsInv` | session/memory_store.go:191-214 | What Recover publishes is again a good and settled aggregate, at most one revision on. |
| `RecoveryKeepsInvariant.RecoverTwice` | session/memory_store.go:191-214 | A second Recover changes nothing, not even the revision, whatever orders the two took. |
| `SessionRuns.CreateEstablishesInv` | session/memory_store.go:269-353 | An idle new Session that the Store accepts satisfies the aggregate invariant. |
| `SessionRuns.CommitKeepsInv` | session/memory_store.go:216-260 | Every accepted Runtime-shaped commit keeps the invariant, appends to History and raises the revision by one. |
| `SessionRuns.RunsAreSafe` | session/memory_store.go:384-569 | Over every run of creation, Runtime commits, crashes and recoveries the invariant holds, History is only appended to and revisions never fall. |
| `SessionRuns.DocumentsReadBack` | session/file_store.go:522-635 | Every aggregate a run reaches is accepted by the file document checker. |
| `SessionRuns.ChangesFrame` | session/memory_store.go:384-569 | Whatever a commit contains, it only appends to History and keeps the Session's identity. |
| `GuardGaps.LonePendingExact` | session/memory_store.go:797-810 | A lone pending update is admitted without an entry; the checker still accepts if and only if the entry exists. |
| `GuardGaps.LonePendingAccepted` | session/memory_store.go:1077-1096 | A concrete commit of that kind that the Store accepts and the checker refuses. |
| `GuardGaps.AttemptStartExact` | session/memory_store.go:670-676 | An admitted attempt start is accepted by the checker if and only if the active Run has no terminal fact. |
| `GuardGaps.AttemptAfterTerminalAccepted` | session/memory_store.go:670-676 | Two concrete commits after which the checker refuses the History. |
| `GuardGaps.ContributionExact` | session/memory_store.go:760-766 | An admitted contribution is accepted by the checker if and only if the active Run has started and not ended. |
| `GuardGaps.LateContributionAccepted` | session/memory_store.go:760-766 | Two concrete commits, the second a contribution after its Run's terminal fact, that the Store accepts and after which the checker refuses the History. |
| `GuardGaps.LimitTriggerExact` | session/memory_store.go:736-746 | An admitted limit fact is accepted by the checker if and only if its trigger is new to the whole Session, not only to its Run. |
| `GuardGaps.ForeignTriggerAccepted` | session/memory_store.go:736-746 | A concrete limit fact with another Run's attempt as its trigger that the Store accepts and the checker refuses. |
| `GuardGaps.HandoverExact` | session/memory_store.go:562-567 | One commit that ends a Run and starts the next keeps the invariant if and only if no call is unfinished. |
| `GuardGaps.UnfinishedHandoverAccepted` | session/memory_store.go:562-567 | A concrete handover with a prepared call that the Store accepts. |
| `RuntimeCommits.CompletionChanges` | standardagent/runtime_execution.go:901-915 | The loop over requested calls builds exactly the completion operations, each call with its prepared entry and its reservations; `BuilderEffects.CompletionTells` says what they leave. |
| `RuntimeCommits.StartIsInShape` | standardagent/runtime_execution.go:1427-1451 | A start commit on an idle Session has the shape that keeps the invariant and writes its conversation in order. |
| `RuntimeCommits.ConsumePendingInputContexts` | standardagent/runtime_input_gate_context.go:45-63 | The loop pairs, for every waiting context of the message, the contribution with the update that marks it consumed. |
| `BuilderEffects.HistoryTells` | session/memory_store.go:384-569 | An accepted change list appends exactly the payloads it names, in its order, and nothing else. |
| `BuilderEffects.CompletionTells` | standardagent/runtime_execution.go:861-920 | After a completion's commit History ends with its message and then its calls in their order. |
| `BuilderEffects.ResultsTell` | standardagent/runtime_execution.go:1161-1213 | After the commit of results History goes on with them in the order of the calls. |
| `BuilderEffects.StartTells` | standardagent/runtime_execution.go:1427-1451 | A start writes the start of the Run first, with the Session's configuration and revision frozen in it. |
| `BuilderEffects.StartHands` | standardagent/runtime_execution.go:1427-1451 | A start writes every waiting context of its message, and every one from the Session's opening bound to this Run and Step, as a contribution to this Run and Step. |
| `BuilderEffects.FinishTells` | standardagent/runtime_execution.go:1215-1301 | An end writes the end of the Run first. |
| `BuilderEffects.HoldsTake` | standardagent/runtime_execution.go:1215-1301 | Holding back gives exactly the named items the held delivery and leaves all others. |
| `QueueTakes.StartTakes` | standardagent/runtime_execution.go:1427-1451 | A start succeeds only in an idle Session and leaves this Run active; its message, queued and unclaimed before or brought along, is gone from the Queue and nothing else is, and it stands in History with this Run and Step. |
| `QueueTakes.SteersTake` | standardagent/runtime_execution.go:1147-1159 | Taking in steers removes exactly these from the Queue, each after the active Run claimed it, and writes each with this Run and Step. |
| `QueueTakes.BoundaryTakes` | standardagent/runtime_execution.go:1161-1213 | The same at the boundary behind the results of a batch. |
| `QueueTakes.FinishLeaves` | standardagent/runtime_execution.go:1215-1301 | An end without successor was the active Run's, leaves the Session idle, takes nothing from the Queue, and gives exactly the named items the held delivery. |
| `AtMostOnce.MarkingIsFirst` | session/memory_store.go:797-841 | Any accepted commit, Runtime-shaped or not, that marks a call or invocation pending finds it not yet past prepared and leaves it past; no commit takes that back. |
| `AtMostOnce.RecoveryKeepsPast` | session/memory_store.go:843-905 | Recovery never takes a call or invocation back to prepared. |
| `AtMostOnce.RunAtMostOnce` | standardagent/runtime_execution.go:621-636 | Across every interleaving of commits (also durable but unacknowledged ones), crashes, recoveries and resumes, each tool call runs and each hook invocation is evaluated at most once. |
| `AtMostOnce.MarkedAtMostOnce` | session/extension_journal.go:299-361 | Of all commits ever accepted, at most one marks a given call or invocation pending. |
| `ProtocolHistory.ReaderKnows` | model/contracts.go:173-227 | Along an accepted, readable History the reader's open exchange is exactly the checker's unanswered calls. |
| `ProtocolHistory.ReadableIffInOrder` | standardagent/runtime_execution.go:1620-1647 | The conversation of an accepted History is never refused if and only if every fact was written in order. |
| `ProtocolHistory.RecoveryStaysReadable` | session/memory_store.go:885-905 | Recovery's unknown results keep the conversation readable. |
| `ProtocolHistory.ForkStaysReadable` | session/memory_manager.go:230-400 | The History of a fork is readable when its parent's is. |
| `ProtocolHistory.AnsweredIsProtocol` | model/contracts.go:173-227 | A readable History projects to accepted inputs if and only if every call is answered. |
| `ToolRounds.CommitOpens` | session/memory_store.go:797-841 | An accepted commit of the Runtime's shape opens exactly the calls it appends and closes exactly those whose results it appends. |
| `ToolRounds.CompletionOpens` | standardagent/runtime_execution.go:861-920 | A completion opens exactly its own calls. |
| `ToolRounds.SettlesClose` | standardagent/runtime_execution.go:1171-1187 | The results of a batch close exactly the calls they answer. |
| `RuntimeLoop.RestorePreparedRun` | standardagent/runtime_execution.go:63-150 | From journals and History alone: the restored Runtime goes on with the prepared calls, all of them in journal order, if and only if the Session is running, its Run has a start fact and no budget or limit fact, some entry is prepared for it, all of these share one Step, and no completion gate is open; the same kind of condition decides whether it goes on at its gates, with the end of the Run, or idle, and in every other case it refuses to open. |
| `RuntimeLoop.RestoredExact` | standardagent/runtime_execution.go:63-150 | The same of the function the loop is proved against, with the exact condition for refusing to open. |
| `RuntimeLoop.LoopOrder` | standardagent/runtime_execution.go:175-207 | What follows what: a completion is followed by its own calls in their order or by the gates, results by a new completion, an end by the next Run or an idle Session, an unheard commit only by the end of the Run, a crash only by recovery and restore. |
| `RuntimeLoop.ReportedAll` | standardagent/runtime_execution.go:1161-1187 | The dispatcher reports each call once: the Tool's own result if it is a valid, known one for this call, and a failure otherwise. |
| `RuntimeLoop.PreparedAreOpen` | standardagent/runtime_execution.go:67-79 | After a recovery the prepared calls of the active Run are exactly the calls without a result. |
| `RuntimeLoop.StartNeedsIdle` | session/memory_store.go:600-617 | The Store accepts a start only in an idle Session, so no call is open then. |
| `RuntimeLoop.StopNeedsFinished` | session/memory_store.go:562-567 | The Store accepts the end of a Run without a successor only when no call is unfinished. |
| `RuntimeLoop.AnswerConverses` | standardagent/runtime_execution.go:1161-1213 | From the loop's place alone: with the open calls being the pending batch, one report per call covers every open call, so the results commit is in shape and in order. |
| `RuntimeLoop.CompleteConverses` | standardagent/runtime_execution.go:1215-1301 | A natural end, with or without the next Run in the same commit, is in shape and in order, because nothing is open where the loop may finish; the Store would admit the unfinished handover (`GuardGaps`). |
| `RuntimeLoop.GatedInputMoves` | standardagent/runtime_input_gate.go:468-575 | The last commit of a gated input is the start of a Run (Send to an idle Session) or writes nothing of the conversation. |
| `RuntimeLoop.MoveConverses` | standardagent/runtime_execution.go:280-406 | Every commit of the loop has the Runtime's shape and keeps the order of the conversation; neither is assumed of the commit, both follow from the place of the loop and the Store's acceptance. |
| `RuntimeLoop.MoveKeepsGood` | standardagent/runtime_execution.go:175-207 | Every move of the loop, every durable but unacknowledged commit, crash, recovery and restore keeps the aggregate good, its conversation readable, nothing open where a message may be written, and the pending batch equal to the open calls. |
| `RuntimeLoop.LivesAreRuns` | standardagent/runtime_execution.go:175-207 | The aggregates of every life of a Session under the loop form a run in the sense of `SessionRuns`, so all that holds of such runs holds of lives without any assumption about commit shapes. |
| `RuntimeLoop.LivesContributeOnce` | standardagent/runtime_lifecycle.go:454-472 | Over every life of the loop a hook invocation contributes at most once, and exactly once when consumed. |
| `RuntimeLoop.ModelSeesProtocol` | standardagent/runtime_execution.go:1620-1647 | At every point of every life the projected conversation is accepted by ValidateInputs if and only if no call is unfinished, and always when the loop is about to ask the model or the Session is idle. |
| `RuntimeLoop.ForkBegins` | session/memory_manager.go:89-141 | A fork taken at any point of a life begins a life of its own: accepted, good and readable. |
| `HookContexts.UpdateConsumes` | session/extension_journal.go:299-361 | A journal update consumes an invocation only by saying so, and never twice. |
| `HookContexts.CommitBalanced` | standardagent/runtime_input_gate_context.go:25-63 | A Runtime commit contributes for an invocation if and only if it is the commit that marks it consumed. |
| `HookContexts.ContributesAtMostOnce` | standardagent/runtime_lifecycle.go:454-472 | Over the life of a Session an invocation yields at most one contribution fact, and exactly one once consumed. |
| `HookContexts.ShownToOneStep` | standardagent/runtime_execution.go:1620-1628 | A consumed invocation has one contribution fact; the input list of the Run and Step it names holds its inputs as one block at that place, and the list of every other Step is as if the fact were not there. |
| `HookContexts.HistoryInputs` | standardagent/runtime_execution.go:1620-1647 | The list the loop returns holds each contribution addressed to the Step as a block at its place, is unchanged by leaving out any other contribution, and is the bare conversation when none is addressed to it. |
| `HookContexts.ContributionShown` | standardagent/runtime_execution.go:1620-1647 | A contribution is shown to the Step it names, whole and in place, and to no other. |
| `HookContexts.PartsAreProjection` | standardagent/runtime_execution.go:1620-1647 | A Step without contributions sees the bare conversation. |
| `ForkRenaming.HistoryRenamed` | session/memory_manager.go:230-345 | An injective renaming of an accepted History is accepted, with the checker in the mirrored state. |
| `ForkRenaming.AcceptsRenamed` | session/memory_manager.go:230-345 | The checker accepts a renamed fact if and only if it accepts the original. |
| `ForkRenaming.PayloadRoundTrip` | session/memory_manager.go:230-345 | The inverse renaming gives back every payload: nothing but identities changes. |
| `ForkRenaming.PayloadFollows` | session/memory_manager.go:230-363 | Every identity in a payload, those in the inputs of a contribution included, goes to its new name; an empty one stays empty, and the child's Session takes the parent's place. |
| `Forking.ValidateForkProtocol` | session/memory_manager.go:413-444 | Accepts exactly the prefixes whose calls are answered and whose attempts have ended. |
| `Forking.SelectForkHistory` | session/memory_manager.go:365-400 | Succeeds exactly for a cutoff within History whose prefix has every call answered and every attempt ended and, when asked for, ends a Step or a Run that does not go on and is not the active one; returns that prefix. |
| `Forking.ForkableExact` | session/memory_manager.go:365-411 | The same condition, stated by facts: which prefixes may be forked. |
| `Forking.RewriteForFork` | session/memory_manager.go:230-363 | The rewriting pass equals one injective renaming with fresh IDs from the counter, applied to every fact; each new payload names what the old one does under the new names, with the old fact as its origin. |
| `Forking.ForkIsAccepted` | session/memory_manager.go:89-141 | For every accepted source and forkable cutoff the child passes validateNewSession, is a good aggregate with an empty journal and cutoff equal to its length, and each fact's origin is its source fact. |
| `Forking.ForkSession` | session/memory_manager.go:89-141 | Fork succeeds exactly under the documented conditions and then hands the Store such a child, with the requested agent, workspace and configuration, idle, and with parent, revision and cutoff as its provenance. |
| `SessionStore.ValidateNewSession` | session/memory_store.go:269-353 | The validation passes decide exactly `NewSessionValid`. |
| `SessionStore.MemoryStore.Create` | session/memory_store.go:53-91 | Creates exactly valid Sessions with new IDs and touches no other; the new aggregate is what the caller gave, at revision 1, its facts numbered from 1. |
| `SessionStore.MemoryStore.Commit` | session/memory_store.go:216-260 | Compare-and-swap: a request under a new key is applied if and only if it is well formed, names the current revision and its changes have an outcome; then the document holds that outcome one revision on, remembers the key, and the receipt tells the revision and the facts appended. A stale one is refused with a revision conflict, a remembered one answered from memory, and in both cases nothing changes. |
| `SessionStore.JudgeExact` | session/memory_store.go:216-260 | The same of the decision the durable Store shares. |
| `SessionStore.MemoryStore.Recover` | session/memory_store.go:191-214 | Publishes a recovery of the stored aggregate and keeps its remembered commits. |
| `DurableCommits.OldOrNew` | session/file_store.go:467-520 | Whatever file operation fails and wherever the process dies, the session file holds the complete old or the complete new document; an acknowledged write is the new one. |
| `DurableCommits.AcknowledgedExact` | session/file_store.go:467-520 | A write is acknowledged if and only if its six file operations all work; the file then holds the new document and no temporary file is left. |
| `DurableCommits.FatesAreOldOrNew` | session/file_store.go:308-364 | Every way a commit's writes can turn out is one of: saved, saved but unacknowledged, lost. |
| `DurableCommits.AppliedAtMostOnce` | session/file_store.go:308-364 | Over every run of commits, failures, crashes and recoveries one idempotency key applies its changes at most once. |
| `DurableCommits.AppliedInOrder` | session/file_store.go:308-364 | Over every run, a request that applies names the current revision, so of two applied ones the later names a strictly larger one. |
| `DurableCommits.RetriesAgree` | session/file_store.go:308-333 | Once durable, a retry is answered if and only if the stored document reads back; then an equal one returns the original revision and range with Applied false, also after later commits, and a different request under the key is refused. |
| `DurableCommits.LonePendingUnreadable` | session/file_store.go:390-450 | A concrete run from an empty Session: its first Run starts, then a commit that the file Store accepts and writes, and whose own retry fails because the document no longer reads back. |
| `DurableCommits.UnreadableForever` | session/file_store.go:308-325 | A document that does not read back never changes again. |
| `DurableCommits.RuntimeRunsAreSound` | session/file_store.go:522-635 | Over every run of Runtime-shaped commits the stored document reads back and its remembered revisions lie in the past. |
| `DurableCommits.RuntimeRetriesAgree` | session/file_store.go:308-333 | So for the Runtime's commits every equal retry replays, without condition. |
| `DurableCommits.ReceiptsStayTrue` | session/memory_store.go:262-267 | The facts a receipt names stay at those sequences forever. |
| `HistoryPaging.HistoryPage` | session/history.go:90-153 | A page ends where the cursor says, before the Step the cursor would cut; it begins as far back as the limit of Steps reaches, behind facts of Runs without a Step on the page, and without Steps that many facts back; it is not empty unless nothing is left, no Step is cut, and HasMore is exact. |
| `HistoryPaging.PageEndExact` | session/history.go:103-114 | Where a page ends, by positions: at the cursor, or in front of the Step that goes on behind it. |
| `HistoryPaging.CursorResumes` | session/history.go:103-114 | A cursor a page handed out is where the next page ends, whatever was appended meanwhile. |
| `HistoryPaging.WalkCollects` | session/history.go:90-153 | Walking backwards with any limits and interleaved commits collects exactly the History as of the first page: no gap, no repeat. |
| `HistoryPaging.WalkTerminates` | session/history.go:90-153 | Every page makes progress, so a walk needs at most as many pages as facts. |
| `SessionList.Paginate` | session/list.go:102-147 | Accepts exactly valid limits and cursors of this scope; a page is the first eligible Sessions in listing order, at most the limit or 50 and exactly that many when a cursor follows. |
| `SessionList.PageExact` | session/list.go:102-154 | A page holds Sessions of the wanted agent and workspace that existed when the listing began and lie behind the cursor, newest first, then by ID; every such Session that is left out is older than all on the page, and there is a cursor if and only if one is left out. |
| `SessionList.NextIsLeast` | session/list.go:89-100 | The time handed out is the least one that is not before the clock and later than the Session's own and than all handed out. |
| `SessionList.IndexExact` | session/list.go:70-100 | A creation adds one Session of the next generation, and a commit gives one Session a new time; no other is touched. |
| `SessionList.SortEligible` | session/list.go:124-134 | Filter and sort yield exactly the eligible Sessions, strictly ordered. |
| `SessionList.NextUpdatedAt` | session/list.go:89-100 | The new time is later than the Session's own and than every time handed out. |
| `SessionList.PositionsAdvance` | session/list.go:149-154 | Positions strictly advance along a traversal. |
| `SessionList.CursorStaysValid` | session/list.go:114-123 | A cursor that was handed out is accepted at any later time. |
| `SessionList.OnlyFirstSessions` | session/list.go:102-134 | Sessions created after the first page never appear. |
| `SessionList.RequestsTraverse` | session/list.go:70-154 | Any interleaving of creations, commits and page requests is a traversal, so the results below hold of it. |
| `SessionList.NeverTwice` | session/list.go:102-154 | No Session is returned twice, however Sessions change between pages. |
| `SessionList.EveryUnchangedOnce` | session/list.go:102-154 | When the cursor is empty, every Session present at the first page and not updated since has been returned exactly once. |
| `SessionList.ListIndex.RecordCreate` | session/list.go:70-75 | Keeps the index fields in step with the listed Sessions. |
| `SessionList.ListIndex.RecordUpdate` | session/list.go:89-100 | A commit or recovery gives the Session the next time and leaves the index describing the touched listing. |
| `SessionList.ListIndex.TakeUpdatedAt` | session/list.go:89-100 | Hands out and remembers the next time. |
| `ModuleOrder.OrderGraph` | dependency.go:125-154 | Returns the lexicographically least topological order, or fails exactly when the graph has a cycle. |
| `ModuleOrder.GreedyIsLeast` | dependency.go:127-140 | Always taking the first ready module gives an order no later than any other topological order. |
| `ModuleOrder.StuckHasCycle` | dependency.go:135-143 | When nothing is ready, the remaining modules contain a cycle. |
| `ModuleOrder.ChainNeverCloses` | dependency.go:125-154 | A graph with a topological order has no cycle. |
| `ModuleAssembly.OrderModules` | dependency.go:85-154 | Orders modules by their resolved requirements, read off the registry: whoever owns a contribution that a module's unkeyed or keyed requirement selects comes before it; a cycle error is returned exactly when all requirements resolve and their graph has a cycle. |
| `ModuleAssembly.ResolveExact` | dependency.go:8-73 | A requirement resolves if and only if it is well formed and its slot is registered with the same kind and type and enough values, or it is optional and the slot missing; it selects all values of the slot in order, or with a key the first value with that key. Each failure happens exactly on its own condition. |
| `ModuleAssembly.ClosedExact` | dependency.go:85-123 | All requirements of the installed modules resolve if and only if each of them is met by installed owners; module p then comes before i in the graph exactly when p owns a contribution that a requirement of i selects. |
| `ModuleAssembly.ResolveForExact` | resolver.go:95-133 | A constructor is given what its first declared requirement for the slot selects, all of it and only when all of it is constructed, and a requirement that was not declared is refused as such. |
| `ModuleAssembly.ConstructorsFindReady` | resolver.go:39-131 | Following that order, a constructor's resolve never fails for a contribution of another module that is not ready. |
| `ModuleAssembly.MaterializeConstructors` | resolver.go:39-72 | After all owners in order, no contribution of a module is left unconstructed; every contribution keeps its slot, place, key, owner and all else but its value. |
| `ModuleAssembly.ProvidersAreActive` | defaults.go:90-104 | Every contribution a requirement selects belongs to an active module, so no provider is unknown. |
| `ModuleAssembly.ResolveManyDefaults` | defaults.go:55-78 | Keeps exactly explicit contributions and defaults without an explicit rival, in order; fails exactly when several defaults compete undecided. |
| `ModuleAssembly.EffectiveExact` | defaults.go:55-78 | A value of a slot survives if and only if it is explicit or no explicit one has its key, and the survivors keep their order. |
| `ModuleAssembly.AmbiguousExact` | defaults.go:55-78 | The defaults of a slot are ambiguous if and only if two of them have one key and no explicit value has it. |
| `TailCompactor.Compact` | context/tail_compactor.go:26-59 | Succeeds exactly on protocol inputs; the result is a protocol suffix: the longest group-aligned tail within the limit (or the last group), stretched only to the latest Run's last continuation. |
| `TailCompactor.ProtocolGroups` | context/tail_compactor.go:73-86 | On protocol inputs the groups are exactly the ranges between message or prompt positions. |
| `TailCompactor.FindLatestRun` | context/tail_compactor.go:61-71 | The Run of the last message or call that belongs to one, and none when there is no such input. |
| `TailCompactor.SuffixIsProtocol` | model/contracts.go:173-227 | Every group-aligned suffix of protocol inputs is protocol. |
| `TailCompactor.ValidateModelContinuations` | standardagent/runtime_context.go:260-301 | The two passes accept exactly inputs that invent, change or drop no continuation and show the required one. |
| `TailCompactor.CompactionKeepsContinuations` | standardagent/runtime_context.go:260-301 | For inputs in History order whose latest Run is the active one, compaction preserves that acceptance. |
| `EventStream.EventQueue.Enqueue` | standardagent/event_stream.go:133-166 | Appends when there is room; a full queue ignores temporary output, makes room for a revision by dropping its oldest temporary event, and ends the stream when it holds none. |
| `EventStream.EnqueuedExact` | standardagent/event_stream.go:133-166 | The same by events and limit: what is queued, dropped or ended in each case. |
| `EventStream.NothingLostWithRoom` | standardagent/event_stream.go:133-166 | While no more events than the queue holds have been published, every one of them is received or still queued, in order, and the stream has not overflowed. |
| `EventStream.EventQueue.Receive` | standardagent/event_stream.go:87-117 | Takes the oldest event, if any. |
| `EventStream.EventQueue.Close` | standardagent/event_stream.go:119-178 | Empties and closes once. |
| `EventStream.AlwaysFaithful` | standardagent/event_stream.go:35-166 | Over every interleaving, received and buffered events stand in publication order and no revision is missing while the stream is open. |
| `EventStream.ReceivedIsPrefix` | standardagent/event_stream.go:87-166 | The queue is bounded, received revisions are a gap-free prefix of those published, and everything received is in publication order. |
| `EventStream.SubscriberGetsPrefix` | standardagent/event_stream.go:10-166 | The same for the limit of 1024 events the Runtime uses. |
| `EventStream.OverflowMeansRevisions` | standardagent/event_stream.go:149-161 | Overflow strikes only a full queue of revisions, on another revision. |
| `RunLimits.ChangesCount` | session/memory_store.go:721-756 | An accepted change list changes the durable counts of a Run by exactly what it contains. |
| `RunLimits.Recount` | standardagent/runtime_execution.go:83-116 | The restore loop recomputes exactly the durable counts. |
| `RunLimits.AcceptedLimits` | session/memory_store.go:721-758 | In an accepted History every limit fact carries the count of its Run up to that fact. |
| `RunLimits.ChangesKeepLimits` | session/memory_store.go:721-758 | Whatever a commit contains, this stays so. |
| `RunLimits.ActiveRun.AdmitAttempt` | standardagent/runtime_execution.go:675-737 | Check and durable start are one step: an attempt is admitted if and only if its Run is below the maximum and the Store takes the start; counters equal History counts, the maximum is never passed, and a limit is reported exactly at the maximum with a fact that carries the durable count. |
| `RunLimits.ActiveRun.CheckAttemptLimit` | standardagent/runtime_execution.go:723-737 | A limit is reported exactly at the maximum, and its fact, written whenever the Store takes it, carries the durable count as its Used. |
| `RunLimits.ActiveRun.CommitCompletion` | standardagent/runtime_execution.go:861-920 | A batch that does not fit is rejected whole, with a limit fact that names its first call and carries the durable count; any other is committed if and only if the Store takes it, and stays within the maximum. |
| `RunLimits.ActiveRun.FinishAttempt` | standardagent/runtime_execution.go:756-823 | Ending an attempt is committed if and only if the Store takes it; it adds its tokens and starts nothing. |
| `RunLimits.ActiveRun.OtherCommit` | standardagent/runtime_execution.go:1490-1508 | Other commits succeed if and only if the Store takes them, and leave the counts. |
| `RunLimits.ActiveRun.Restore` | standardagent/runtime_execution.go:63-150 | After a crash, recovery and restore the counters equal the History counts and the counts are unchanged. |
| `LimitTraces.TracesFollow` | standardagent/runtime_execution.go:640-920 | Over every trace of attempts, completions, other commits, crashes and restores, with commits acknowledged, lost or durable without acknowledgement: the durable counts exceed the counters by exactly what was durable and unacknowledged since the last restore, calls never pass their maximum, attempts pass theirs by at most those never counted, and every limit fact carries the durable count at its place. |
| `LimitTraces.CountersAreDurable` | standardagent/runtime_execution.go:723-737 | A counter is the durable count if and only if nothing of its kind was missed since the last restore; with no missed attempt both maxima hold at every point. |
| `LimitTraces.UnheardAttemptPasses` | standardagent/runtime_execution.go:696-705 | A concrete trace with a maximum of one attempt: a start that is durable and unacknowledged, and then a second one. |
| `LimitTraces.LimitHasTrigger` | standardagent/runtime_execution.go:891-895 | A rejected batch always has a first call for its limit fact to name. |
| `RuntimeRegistry.SharedRegistry.Begin` | standardagent/runtime.go:164-187 | Finds the entry, another flight, or opens a flight of its own. |
| `RuntimeRegistry.SharedRegistry.Land` | standardagent/runtime.go:188-202 | Ends the flight and publishes the Runtime on success; every other Session's entry and flight stay. |
| `RuntimeRegistry.SharedRegistry.Add` | standardagent/runtime.go:204-216 | Accepts exactly when the Session has neither entry nor flight, and then makes the Runtime routable. |
| `RuntimeRegistry.SharedRegistry.MarkClosing` | standardagent/runtime.go:258-279 | Succeeds exactly for the Runtime that is routable and not in flight; then it is no longer routable and its Session drains. |
| `RuntimeRegistry.SharedRegistry.Discard` | standardagent/runtime.go:225-231 | Afterwards this Runtime is not routable; another one's entry and every other Session stay. |
| `RuntimeRegistry.NextKeepsInv` | standardagent/runtime.go:164-384 | Every step of create, resume and close keeps entries and flights disjoint and every unclosed, taken-over Runtime in its Session's slot. |
| `RuntimeRegistry.SlotMoves` | standardagent/runtime.go:164-384 | The life of a slot: a resume opens it, building fills it, landing or add makes its Runtime routable, markClosing drains it, and it is free when the drained Runtime has closed; no step touches another Session's slot. |
| `RuntimeRegistry.OneRuntimePerSession` | standardagent/runtime.go:164-279 | In every interleaving at most one unclosed Runtime per Session has been taken over, and of two unclosed ones exactly one is a candidate of create that add has not accepted. |
| `RuntimeRegistry.StepKeepsOne` | standardagent/runtime.go:164-338 | With at most one unclosed Runtime before a step there is at most one after it if and only if the step neither builds a candidate while an open Runtime holds the Session's slot nor builds a resumed one beside an open candidate. |
| `RuntimeRegistry.TwoRuntimesAtOnce` | standardagent/runtime.go:305-338 | A concrete interleaving of create and resume with two unclosed Runtimes of one Session. |
| `RuntimeRegistry.SuccessorWaits` | standardagent/runtime.go:258-384 | No Runtime is built by resume or accepted by add before every taken-over predecessor has finished closing. |
| `RuntimeRegistry.RoutableIsOwned` | standardagent/runtime.go:305-384 | What is routable is the one Runtime the registry has taken over, never a refused candidate. |
| `InputGates.RecoveryLegal` | standardagent/runtime_input_gate_recovery.go:19-77 | Each entry's recovery updates are legal transitions and leave it at rest: a gate not begun failed, one without answer unknown, an open answer discarded, and a settled one with at most its context given up, exactly when its message no longer waits. |
| `InputGates.InputGateRecoveryChanges` | standardagent/runtime_input_gate_recovery.go:11-80 | The journal accepts all updates in order; afterwards every input-gate entry is as just said and every other entry is untouched. |
| `InputGates.UnclaimedMessages` | standardagent/runtime_input_gate_recovery.go:13-18 | Exactly the queued messages nobody has claimed. |
| `GatedInput.ExecuteGates` | standardagent/runtime_input_gate.go:219-280 | Every journal update is accepted and holds what its gate answered; all gates pass exactly when the run is accepted, otherwise the first that does not stops it and the rest are skipped. |
| `GatedInput.FinalizeRejected` | standardagent/runtime_input_gate.go:397-441 | Every entry ends settled without a waiting context; the first entry that stopped the input is applied if it rejected or failed, and every other one is discarded. |
| `GatedInput.FinalizeAccepted` | standardagent/runtime_input_gate.go:468-575 | A Send takes effect if and only if the Runtime is open, a Steer if also its Run is still the active one, an Edit if also some unclaimed item of the message still has the parts and delivery the edit started from. Then its one commit puts item, Run or edit into the aggregate and marks every gate applied, and otherwise one commit discards them all and changes nothing else. The journal takes the commit's updates if and only if no older context of an edited message still waits, and every accepted commit leaves exactly the returned journal. |
| `GatedInput.TargetExact` | standardagent/runtime_input_gate.go:535-556 | What an unchanged target is, for each kind of input, by Queue items and Run state. |
| `GatedInput.LastTakes` | standardagent/runtime_input_gate.go:468-575 | What that commit leaves in the aggregate, for every outcome of the Store. |
| `GatedInput.LastIsInShape` | standardagent/runtime_input_gate_context.go:25-43 | The commit, accepted contexts consumed or kept, has the Runtime's shape: a context is marked consumed only behind its contribution. |
| `GatedInput.OlderExact` | standardagent/runtime_input_gate_context.go:84-103 | The journal takes the updates by which an edit gives up older contexts of its message if and only if each of those is applied, and then they lead to the journal without them. |
| `GatedInput.LastExact` | standardagent/runtime_input_gate.go:468-575 | The updates of the last commit are taken if and only if the effect's are, and lead to the journal with the gates settled and waiting contexts handed over or given up. |
| `GatedInput.Submit` | standardagent/runtime_input_gate.go:31-163 | A gated input takes effect if and only if every gate accepted, the Runtime is open and, for a Steer, its Run is still active, for an Edit, some unclaimed item of the message still has the original parts and delivery. The gates' commits lead from the prepared journal to the answered one, which holds each gate's answer; the last commit meets that journal, and whatever the Store publishes for it holds exactly the returned journal. If the input took effect, the commit carries it and marks all entries applied. Otherwise it writes the journal alone and is never refused, and every entry ends settled without a waiting context, all but the stopping one discarded. |
| `GatedInputCases.ClosedAfterAccept` | standardagent/runtime_input_gate.go:468-475 | A concrete Send whose gate accepts while the Runtime closes: the committed aggregate has no item, no Run and a discarded gate. |
| `GatedInputCases.OlderContextBlocks` | standardagent/runtime_input_gate.go:558-565 | A concrete edit that every gate accepts, with the Runtime open and the target unchanged, whose commit the Store refuses because an earlier input for the message still waits for its own last commit. |
| `GatedInputCases.ConflictingEdit` | standardagent/runtime_input_gate.go:535-556 | A concrete edit whose gate accepts while another edit changes the message: the last commit keeps the other edit's parts and discards the gate. |
| `JournalPasses.UpdatesApplied` | session/extension_journal.go:267-297 | The extension journal any commit leaves is what its updates, in order, make of the one it met. |
| `JournalPasses.StartReaches` | standardagent/runtime_execution.go:1427-1451 | The updates of a start are taken and lead to the journal with every waiting lifecycle and input context handed to the new Run. |
| `JournalPasses.HandedOver` | standardagent/runtime_input_gate_context.go:45-63 | Those contexts are exactly the waiting, applied ones of accepted inputs for this message and of the Session's opening; every other entry is as it was. |
| `HookSettling.CancelPrepared` | standardagent/runtime_input_gate.go:335-378 | Exactly the prepared entries from the given position are skipped and discarded. |
| `HookSettling.SettleEntries` | standardagent/runtime_input_gate_context.go:13-82 | The settling loops update exactly the entries whose effect is open, and the journal accepts each update. |
| `HookSettling.JournalOnlyLeaves` | standardagent/runtime_input_gate_context.go:65-82 | Commits of journal updates alone leave Queue, History, Run and everything else as they were. |
| `HookSettling.EntryOpsShaped` | standardagent/runtime_input_gate_context.go:25-43 | The operations that settle entries have the Runtime's shape and write nothing of the conversation. |
| `HookSettling.ConsumeToolResultHookContexts` | standardagent/runtime_tool_result.go:289-308 | The loop over the answered tool-result hooks pairs every waiting context with its contribution, addressed to the Step after the batch. |
| `HookSettling.ResultHooksInShape` | standardagent/runtime_tool_result.go:289-308 | That commit has the Runtime's shape and writes nothing of the conversation. |
| `HookSettling.EffectSticks` | session/extension_journal.go:299-361 | An effect written anywhere in an accepted change list is the invocation's effect at its end. |
| `CompletionGates.RunGates` | standardagent/runtime_completion.go:353-468 | Every journal update of a new occurrence is accepted, and the entry of every gate that was asked holds its answer. The occurrence is applied exactly when every gate passes and nothing interrupts; after a failure the failed gate's effect is applied and all others discarded, after an abort all are discarded. Its entries end all settled if and only if, among the gates it reaches, none is met by a Cancel or Close seen under the lock and none but the first by an abort. Otherwise exactly the pipelined gate stays pending, or everything stays as it stood. |
| `CompletionGates.OutcomeOfStop` | standardagent/runtime_completion.go:353-399 | How an occurrence ends, from its gates alone. |
| `CompletionGates.CutBeforeFirst` | standardagent/runtime_completion.go:364-367 | A Cancel or Close seen under the lock before the only gate leaves it prepared. |
| `CompletionGates.CutAfterFirst` | standardagent/runtime_completion.go:364-367 | Seen before the second gate, it leaves the first answer undecided and the second gate pending. |
| `CompletionGates.AbortAfterFirst` | standardagent/runtime_completion.go:353-370 | The failing case itself: two gates, the first passes, an abort before the second leaves the second pending. |
| `CompletionGates.Abort` | standardagent/runtime_completion.go:689-710 | Recorded answers are kept and discarded and unstarted gates canceled; with a pipelined gate exactly that one stays pending. |
| `CompletionGates.Fail` | standardagent/runtime_completion.go:712-729 | After a failed gate every entry ends settled: its own effect applied, all others discarded, answers kept. |
| `CompletionGates.LastGate` | standardagent/runtime_completion.go:419-468 | The last answer and the application of the whole occurrence: all applied with no context waiting, or all settled. |
| `CompletionGates.ApplyGates` | standardagent/runtime_completion.go:524-591 | Applying (or discarding) every answer is accepted in either order of the last answer, settles all entries, and its updates are those of the apply commit. |
| `CompletionGates.ApplyOpsUpdate` | standardagent/runtime_completion.go:549-573 | The journal updates of the apply commit's operations are exactly those ApplyGates writes. |
| `CompletionGates.ApplyIsInShape` | standardagent/runtime_completion.go:549-573 | The apply commit has the Runtime's shape and writes nothing of the conversation. |
| `CompletionGates.RetryIsInShape` | standardagent/runtime_completion.go:620-655 | So has the retried one. |
| `CompletionGates.JudgedLegal` | standardagent/runtime_completion.go:405-431 | Recording a gate's answer is a legal transition. |

## Left out

- ExtensionPage, diagnostics, observation hub, gateways, channels, goals, billing and memory tools: plumbing or flat validation.
- Field validators (trimmed strings, MIME, UTF-8) and cloning: values are taken as well formed; only the conditions other code depends on are kept.
- Actor identities, creation times and client message IDs: copied, never inspected by the modelled code.
- Overflow of token sums: integers are unbounded, so the checker's overflow exit is never taken.
- JSON encoding, document formats, size limits and file names: a document on disk is whole or torn; power-loss reordering of an unsynced rename is not modelled.
- HMAC-signed list cursors: a cursor is its content; a forged or foreign cursor is refused by the signature and does not reach the model.
- Tool dispatcher, tool preflight and tool-result hooks: a tool runs only after its mark succeeded, and whatever it returns is reported as one result per call; authorisation, parallel batches and the hooks' own order are not modelled.
- Context builders and compactors other than the tail compactor: they are components whose output the Store checks again.
- Restored completion occurrences, Goal decisions and lifecycle occurrences: their journal steps are covered by AtMostOnce, ExtensionJournal and HookContexts for all accepted commits; their control flow is not modelled step by step.
- CompletionGates.RunGates: starts from a new occurrence and says nothing about commits that fail, which completionPersistenceFailure settles from the reloaded aggregate.
- Application-wide shutdown and liveness of waiting callers (getOrCreate and wait loops, Recv blocking): only safety of each critical section is modelled.
- One-value and chain slot defaults: only the many-valued kind is modelled (ModuleAssembly.ResolveManyDefaults).
- StartFromSummary: its child holds queued input only and adds no new case to creation.
- GatedInput.Submit: says nothing about commits that fail for want of persistence or a Runtime that is failing closed, because such an input is settled by recovery (InputGates.InputGateRecoveryChanges). Nor does it say when the Store takes the queue part of an effect.
- LimitTraces.TracesFollow: takes as given that a Run whose completion commit failed makes no further completion before a restore, as in RuntimeLoop.
- RunLimits.ActiveRun.AdmitAttempt: attempt observers and their compensation between the two checks are not modelled; they do not touch the Session.
- SessionRuns.RunsAreSafe: takes the Runtime's commit shapes as given; RuntimeLoop.LivesAreRuns derives them from the loop, except that the trigger of a limit fact is new to the Session, which neither Store nor Runtime enforces (GuardGaps.LimitTriggerExact).
- RuntimeLoop.MoveConverses: writes beside the conversation (queue commands, attempts, contexts, configuration, hook journal) are any operations that append neither messages, calls, results nor Run facts and mark a context consumed only behind its contribution; GatedInputMoves, CompletionGates.ApplyIsInShape, RetryIsInShape and HookSettling.ResultHooksInShape show this of the hooks' commits.
- RuntimeLoop.ModelSeesProtocol: one Runtime at a time works on a Session; two at once (RuntimeRegistry.TwoRuntimesAtOnce) are outside. Step numbers, timing and which queued items are picked are left open, and so is whether a restored Run can always go on.
- ForkRenaming.HistoryRenamed: the five renaming maps of the source are one map keyed by kind and ID.
- ModuleAssembly.ConstructorsFindReady: a module that resolves its own contribution before constructing it still gets a not-ready error, as in the source.
