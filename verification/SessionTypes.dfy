/** The values of a Session aggregate: History facts, Queue, journals, changes and
    the Snapshot that holds them (session/contracts.go, agent/types.go, hook/invocation.go).

    Every identifier is a natural number and 0 stands for the empty string, so an ID is
    valid exactly when it is not 0. Content that the Session code only copies or compares
    (message parts, JSON arguments, digests, configuration settings) is a number too.
    Timestamps are numbers with 0 for the zero time. */
module SessionTypes {

  type SessionID = nat
  type RunID = nat
  type StepID = nat
  type MessageID = nat
  type ToolCallID = nat
  type AttemptID = nat
  type InvocationID = nat
  type Revision = nat
  type Time = nat

  datatype Option<+T> = None | Some(value: T)

  /** The stable error codes a Store operation answers with. */
  datatype ErrorCode =
    | InvalidInput
    | RevisionConflict
    | HistoryInvariant
    | JournalInvariant
    | QueueItemAlreadyExists
    | QueueItemNotFound
    | QueueItemClaimed
    | NoActiveRun
    | ActiveRunExists
    | SessionNotFound
    | SessionAlreadyExists

  datatype Result<+T> = Ok(value: T) | Err(code: ErrorCode) {
    predicate IsFailure() { Err? }
    function PropagateFailure<U>(): (r: Result<U>)
      requires Err?
    {
      Err(code)
    }
    function Extract(): T
      requires Ok?
    {
      value
    }
  }

  function Check(condition: bool, code: ErrorCode): (r: Result<()>) {
    if condition then Ok(()) else Err(code)
  }

  // ---------------------------------------------------------------- conversation

  datatype Role = RoleUser | RoleAssistant | RoleTool

  datatype Continuation = Continuation(provider: nat, model: nat, state: nat)

  datatype Message = Message(
    id: MessageID, session: SessionID, run: RunID, step: StepID,
    role: Role, parts: seq<nat>, continuation: Option<Continuation>)
  {
    predicate Valid() {
      && id != 0 && session != 0
      && (continuation.Some? ==> role == RoleAssistant && run != 0 && step != 0)
      && (parts == [] ==> role == RoleAssistant && run != 0 && step != 0)
    }
  }

  datatype ToolCall = ToolCall(
    id: ToolCallID, message: MessageID, session: SessionID, run: RunID, step: StepID,
    correlation: nat, name: nat, arguments: nat)
  {
    predicate Valid() {
      id != 0 && message != 0 && session != 0 && run != 0 && step != 0 && name != 0
    }
  }

  datatype ResultStatus = ResultSucceeded | ResultFailed | ResultUnknown

  datatype ToolResult = ToolResult(call: ToolCallID, status: ResultStatus, output: nat, error: Option<nat>) {
    predicate Valid() {
      call != 0 && (status == ResultFailed <==> error.Some?)
    }
  }

  function ToolUnknown(id: ToolCallID): (r: ToolResult) {
    ToolResult(id, ResultUnknown, 0, None)
  }

  /** One model-facing projection item (model/contracts.go). */
  datatype Input =
    | PromptInput(prompt: nat)
    | MessageInput(message: Message)
    | CallInput(call: ToolCall)
    | ResultInput(result: ToolResult)
  {
    predicate Valid() {
      match this
      case PromptInput(p) => p != 0
      case MessageInput(m) => m.Valid()
      case CallInput(c) => c.Valid()
      case ResultInput(r) => r.Valid()
    }
    predicate BelongsTo(sid: SessionID) {
      match this
      case MessageInput(m) => m.session == sid
      case CallInput(c) => c.session == sid
      case _ => true
    }
  }

  // ---------------------------------------------------------------- run facts

  datatype Config = Config(provider: nat, model: nat, settings: nat) {
    predicate Valid() { model != 0 }
  }

  datatype RunKind = RunStarted | RunCompleted | RunCanceled | RunFailed | RunInterrupted

  datatype TerminationCode =
    | CodeModelAttemptLimit | CodeToolCallLimit | CodeTokenBudget | CodeRuntimeInterrupted | OtherCode(code: nat)

  datatype RunFact = RunFact(
    session: SessionID, run: RunID, kind: RunKind, config: Config, configRevision: Revision,
    termination: Option<TerminationCode>)
  {
    predicate Valid(sid: SessionID) {
      && session == sid && run != 0 && config.Valid()
      && (kind == RunStarted || kind == RunCompleted ==> termination.None?)
    }
  }

  datatype AttemptKind = AttemptStarted | AttemptSucceeded | AttemptFailed | AttemptCanceled | AttemptOutcomeUnknown

  datatype Attempt = Attempt(
    id: AttemptID, run: RunID, step: StepID, kind: AttemptKind, provider: nat, model: nat,
    request: nat, tokens: int, error: nat)
  {
    predicate Valid() {
      && id != 0 && run != 0 && step != 0 && model != 0 && tokens >= 0
      && (kind == AttemptStarted ==> tokens == 0 && request == 0 && error == 0)
      && (kind == AttemptSucceeded ==> error == 0)
      && (kind != AttemptStarted && kind != AttemptSucceeded ==> error != 0)
    }
    predicate SameIdentity(other: Attempt) {
      run == other.run && step == other.step && provider == other.provider && model == other.model
    }
  }

  /** Where a contribution comes from: an installed context source, or one hook invocation
      ("hook:key:invocation" in the source). */
  datatype SourceKey = ContextSource(key: nat) | HookSource(key: nat, invocation: InvocationID)

  datatype Contribution = Contribution(run: RunID, step: StepID, source: SourceKey, inputs: seq<Input>) {
    predicate Valid(sid: SessionID) {
      && run != 0 && step != 0
      && forall i :: 0 <= i < |inputs| ==> inputs[i].Valid() && !inputs[i].PromptInput? && inputs[i].BelongsTo(sid)
    }
  }

  datatype Budget = Budget(run: RunID, used: int, max: int) {
    predicate Valid() { run != 0 && max > 0 && used >= max }
  }

  datatype LimitKind = LimitModelAttempts | LimitToolCalls

  datatype Limit = Limit(
    run: RunID, step: StepID, kind: LimitKind, used: int, max: int, requested: int,
    triggerAttempt: AttemptID, triggerCall: ToolCallID)
  {
    predicate Valid() {
      && run != 0 && step != 0 && used >= 0 && max > 0 && requested > 0
      && !(used < max && requested <= max - used)
      && match kind
         case LimitModelAttempts => triggerAttempt != 0 && triggerCall == 0
         case LimitToolCalls => triggerCall != 0 && triggerAttempt == 0
    }
  }

  /** The single typed payload of a History fact. */
  datatype Payload =
    | MessagePayload(message: Message)
    | CallPayload(call: ToolCall)
    | ResultPayload(result: ToolResult)
    | RunPayload(run: RunFact)
    | AttemptPayload(attempt: Attempt)
    | ConfigPayload(previous: Config, current: Config)
    | ContributionPayload(contribution: Contribution)
    | BudgetPayload(budget: Budget)
    | LimitPayload(limit: Limit)
  {
    predicate Valid(sid: SessionID) {
      match this
      case MessagePayload(m) => m.Valid() && m.session == sid
      case CallPayload(c) => c.Valid() && c.session == sid
      case ResultPayload(r) => r.Valid()
      case RunPayload(r) => r.Valid(sid)
      case AttemptPayload(a) => a.Valid()
      case ConfigPayload(p, c) => p.Valid() && c.Valid()
      case ContributionPayload(c) => c.Valid(sid)
      case BudgetPayload(b) => b.Valid()
      case LimitPayload(l) => l.Valid()
    }
  }

  /** A fact's identity names its Session and its position there. */
  datatype FactID = NoFact | FactOf(session: SessionID, sequence: nat)

  datatype HistoryFact = HistoryFact(
    id: FactID, origin: FactID, sequence: nat, session: SessionID, run: RunID, step: StepID, payload: Payload)

  // ---------------------------------------------------------------- queue and tool journal

  datatype Delivery = DeliveryNormal | DeliverySteer | DeliveryHeld

  datatype QueueItem = QueueItem(message: Message, delivery: Delivery, claimedBy: RunID) {
    predicate Valid(sid: SessionID) {
      && message.Valid() && message.session == sid && message.role == RoleUser
      && message.run == 0 && message.step == 0
    }
    predicate Claimed() { claimedBy != 0 }
  }

  datatype JournalStatus = JournalPrepared | JournalPending | JournalSucceeded | JournalFailed | JournalOutcomeUnknown

  predicate Unfinished(status: JournalStatus) {
    status == JournalPrepared || status == JournalPending
  }

  datatype JournalEntry = JournalEntry(
    run: RunID, step: StepID, call: ToolCall, result: Option<ToolResult>, status: JournalStatus)
  {
    predicate Valid(sid: SessionID) {
      && run != 0 && step != 0
      && call.Valid() && call.session == sid && call.run == run && call.step == step
      && (if Unfinished(status) then result.None?
          else result.Some? && result.value.call == call.id && result.value.Valid() && match status
            case JournalSucceeded => result.value.status == ResultSucceeded
            case JournalFailed => result.value.status == ResultFailed
            case _ => result.value.status == ResultUnknown)
    }
  }

  function StatusOf(result: ToolResult): (r: JournalStatus) {
    match result.status
    case ResultSucceeded => JournalSucceeded
    case ResultFailed => JournalFailed
    case ResultUnknown => JournalOutcomeUnknown
  }

  // ---------------------------------------------------------------- extension journal values

  datatype Boundary =
    | BoundaryInputGate | BoundaryToolPreflight | BoundaryToolResult | BoundaryCompletion | BoundarySessionLifecycle

  datatype InvocationStatus =
    | InvocationPrepared | InvocationPending | InvocationSucceeded
    | InvocationFailed | InvocationCanceled | InvocationOutcomeUnknown
  {
    predicate Terminal() { !InvocationPrepared? && !InvocationPending? }
  }

  datatype Effect = EffectNone | EffectPending | EffectApplied | EffectDiscarded
  datatype ContextState = ContextNone | ContextPending | ContextConsumed | ContextDiscarded

  datatype Decision =
    | DecisionNone | DecisionAccept | DecisionReject | DecisionAllow | DecisionDeny
    | DecisionRequireApproval | DecisionComplete | DecisionContinue

  datatype LifecyclePhase = NoPhase | LifecycleOpen | LifecycleClose

  /** Digest and canonical size of a context. The hash is idealised: equal fingerprints
      come from equal inputs. */
  datatype Fingerprint = NoFingerprint | FingerprintOf(inputs: seq<Input>)

  /** The immutable part of an invocation: who, where and on what input. */
  datatype ExtensionIdentity = ExtensionIdentity(
    invocation: InvocationID, sequence: nat, key: nat, definitionDigest: nat, boundary: Boundary,
    session: SessionID, run: RunID, step: StepID, target: StepID, message: MessageID, call: ToolCallID,
    goal: nat, goalVersion: nat, phase: LifecyclePhase, openKind: nat,
    inputDigest: nat, preparedRevision: Revision, preparedAt: Time)

  datatype ExtensionEntry = ExtensionEntry(
    identity: ExtensionIdentity,
    pendingAt: Time, finishedAt: Time, status: InvocationStatus,
    result: Option<Decision>, errorCode: nat, errorReason: nat,
    effect: Effect, context: ContextState,
    inputs: seq<Input>, fingerprint: Fingerprint)

  // ---------------------------------------------------------------- aggregate

  datatype ContextView = ContextView(
    version: nat, sourceRevision: Revision, sourceSequence: nat, tokenCount: int,
    session: SessionID, run: RunID, step: StepID, config: Config, configRevision: Revision, inputs: seq<Input>)

  datatype Event = ConfigChanged(revision: Revision, previous: Config, current: Config)

  datatype SessionInfo = SessionInfo(
    id: SessionID, agent: nat, workspace: nat, parent: SessionID, parentRevision: Revision)

  datatype Provenance = Provenance(parent: SessionID, cutoff: nat)

  datatype Snapshot = Snapshot(
    session: SessionInfo, revision: Revision, history: seq<HistoryFact>,
    context: ContextView, retained: seq<ContextView>, queue: seq<QueueItem>,
    journal: seq<JournalEntry>, extensions: seq<ExtensionEntry>, events: seq<Event>,
    config: Config, running: bool, activeRun: RunID, fork: Option<Provenance>)

  const EmptyContext := ContextView(0, 0, 0, 0, 0, 0, 0, Config(0, 0, 0), 0, [])

  /** The typed changes a commit may carry. */
  datatype Change =
    | AppendMessage(message: Message)
    | AppendToolCall(call: ToolCall)
    | AppendToolResult(result: ToolResult)
    | AppendRunFact(fact: RunFact)
    | AppendModelAttempt(attempt: Attempt)
    | AppendContextContribution(contribution: Contribution)
    | AppendRunBudgetExceeded(budget: Budget)
    | AppendRunLimitExceeded(limit: Limit)
    | AppendSessionEvent(previous: Config, current: Config)
    | EnqueueMessage(item: QueueItem)
    | ClaimQueue(claimed: MessageID, claimer: RunID)
    | ConsumeQueue(consumed: MessageID, consumer: RunID)
    | EditQueue(edited: MessageID, parts: seq<nat>, delivery: Delivery)
    | DeleteQueue(deleted: MessageID)
    | ReclassifyQueue(reclassified: MessageID, newDelivery: Delivery)
    | SetContext(view: ContextView, retain: bool)
    | SetModelConfig(config: Config)
    | SetRunState(run: RunID, toRunning: bool)
    | UpdateRunJournal(entry: JournalEntry)
    | UpdateExtensionJournal(extension: ExtensionEntry)
}
