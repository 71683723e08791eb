/** One upstream attempt's terminal classification and its projection, the lane
    decision consumed by failover, accounting and target health. */
module Outcomes {
  /** The persisted usage status; NoStatus is the empty string. */
  datatype UsageStatus =
    | NoStatus | StatusOk | StatusError | StatusCanceled | StatusTruncated | StatusOverflow | StatusTimeout
    | OtherStatus(text: string)

  /** Error codes and trace reasons; NoCode is the empty string. */
  datatype Code =
    | NoCode
    | StreamTruncated | StreamIdleTimeout | StreamOverflow | BudgetExceeded
    | DownstreamWrite | ResponseEncode | UpstreamErrorCode | UpstreamTimeoutCode
    | ClientCanceled
    | OtherCode(text: string)

  datatype TraceOutcome = NoTrace | TraceOk | CommittedFail | FailTerminal | FailSwitch

  datatype DiagnosticStatus = NoDiagnostic | DiagnosedOk | DiagnosedCommittedFail | DiagnosedTimeout | DiagnosedCanceled | DiagnosedFailed

  /** The kinds the gateway produces; the Go type is a byte, so any other value is
      representable and falls to the default branches. */
  datatype OutcomeKind =
    | UpstreamFailed
    | ClientAborted
    | CommittedSuccess
    | CommittedPartial
    | GatewayOverflow
    | GatewayTimeout
    | DownstreamWriteFailed
    | EncodeFailed
    | Unnamed(value: nat)

  datatype LaneDecision = LaneDecision(
    kind: OutcomeKind,
    committed: bool,
    success: bool,
    eligible: bool,
    penalizeUpstream: bool,
    downstreamClient: bool,
    gatewayTimeout: bool,
    billable: bool,
    usageStatus: UsageStatus,
    traceOutcome: TraceOutcome,
    traceReason: Code,
    diagnosticStatus: DiagnosticStatus,
    diagnosticError: Code)

  datatype Outcome = Outcome(
    kind: OutcomeKind,
    committed: bool,
    success: bool,
    clientGone: bool,
    noUpstreamPenalty: bool,
    gatewayTimeout: bool,
    eligible: bool,
    usageStatus: UsageStatus,
    credentialCooldown: int,
    statusCode: int,
    code: Code)

  /** A struct literal that sets only the kind and what follows from it. */
  function Plain(kind: OutcomeKind, committed: bool, eligible: bool, cooldown: int, statusCode: int, code: Code): Outcome {
    Outcome(kind, committed, false, false, false, false, eligible, NoStatus, cooldown, statusCode, code)
  }

  function NormalizedKind(o: Outcome): OutcomeKind {
    if o.kind.ClientAborted? && o.committed && o.code == DownstreamWrite then DownstreamWriteFailed
    else if o.kind != UpstreamFailed then o.kind
    else if o.committed && o.success then CommittedSuccess
    else if o.committed && o.gatewayTimeout then GatewayTimeout
    else if o.committed && o.noUpstreamPenalty then GatewayOverflow
    else if o.committed && o.clientGone then ClientAborted
    else if o.committed then CommittedPartial
    else if o.clientGone then ClientAborted
    else if o.gatewayTimeout then GatewayTimeout
    else UpstreamFailed
  }

  function UsageStatusFor(kind: OutcomeKind, code: Code): UsageStatus {
    match kind
    case CommittedSuccess => StatusOk
    case ClientAborted => StatusCanceled
    case DownstreamWriteFailed => StatusCanceled
    case GatewayTimeout => StatusTimeout
    case GatewayOverflow => StatusOverflow
    case CommittedPartial =>
      if code == StreamTruncated || code == StreamIdleTimeout then StatusTruncated
      else if code == StreamOverflow then StatusOverflow
      else if code == BudgetExceeded then StatusTimeout
      else StatusError
    case _ => StatusError
  }

  /** One row per kind. Where the source leaves the trace reason or the error of a
      row empty it falls back to the code, except for the error of a success. */
  function LaneDecisionFor(kind: OutcomeKind, committed: bool, eligible: bool, code: Code): LaneDecision {
    var usage := UsageStatusFor(kind, code);
    match kind
    case CommittedSuccess =>
      LaneDecision(kind, true, true, eligible, false, false, false, true, usage, TraceOk, code, DiagnosedOk, NoCode)
    case CommittedPartial =>
      LaneDecision(kind, true, false, eligible, true, false, false, false, usage, CommittedFail, code,
                   DiagnosedCommittedFail, code)
    case GatewayOverflow =>
      LaneDecision(kind, true, false, eligible, false, false, false, false, usage, CommittedFail, code,
                   DiagnosedCommittedFail, code)
    case GatewayTimeout =>
      LaneDecision(kind, true, false, eligible, false, false, true, false, usage, CommittedFail, BudgetExceeded,
                   DiagnosedTimeout, BudgetExceeded)
    case ClientAborted =>
      LaneDecision(kind, committed, false, eligible, false, true, false, false, usage,
                   if committed then CommittedFail else FailTerminal, ClientCanceled, DiagnosedCanceled, code)
    case DownstreamWriteFailed =>
      LaneDecision(kind, true, false, eligible, false, true, false, false, usage, CommittedFail, DownstreamWrite,
                   DiagnosedCanceled, DownstreamWrite)
    case EncodeFailed =>
      LaneDecision(kind, true, false, eligible, false, false, false, false, usage, FailTerminal, code,
                   DiagnosedCommittedFail, code)
    case _ =>
      LaneDecision(kind, committed, false, eligible, false, false, false, false, usage, FailTerminal, code,
                   DiagnosedFailed, code)
  }

  function Normalize(o: Outcome): Outcome {
    var kind := NormalizedKind(o);
    var d := LaneDecisionFor(kind, o.committed, o.eligible, o.code);
    var status := if kind.ClientAborted? && o.usageStatus == StatusError then NoStatus else o.usageStatus;
    o.(kind := kind,
       committed := d.committed,
       success := d.success,
       eligible := if kind.UpstreamFailed? then o.eligible else d.eligible,
       clientGone := d.downstreamClient,
       noUpstreamPenalty := kind.GatewayOverflow?,
       gatewayTimeout := d.gatewayTimeout || kind.GatewayTimeout?,
       usageStatus := if status == NoStatus then d.usageStatus else status)
  }

  /** The decision for an outcome whose fields already agree with its kind. */
  function DecideNormalized(o: Outcome): LaneDecision {
    if o.code == DownstreamWrite then LaneDecisionFor(DownstreamWriteFailed, true, false, o.code)
    else
      var d := LaneDecisionFor(o.kind, o.committed, o.eligible, o.code);
      d.(penalizeUpstream := if o.kind.UpstreamFailed? then o.eligible else d.penalizeUpstream,
         traceOutcome := if o.kind.UpstreamFailed? then (if o.eligible then FailSwitch else FailTerminal)
                         else d.traceOutcome,
         usageStatus := if o.usageStatus != NoStatus then o.usageStatus else d.usageStatus)
  }

  function Decide(o: Outcome): LaneDecision {
    DecideNormalized(Normalize(o))
  }

  /** The request context's error: it is set once and then stays. */
  datatype Context = Alive | Canceled | Expired

  function WithRequestContext(o: Outcome, ctx: Context): Outcome {
    if !o.committed && ctx.Canceled? then
      Normalize(o.(kind := ClientAborted, eligible := false, credentialCooldown := 0))
    else if o.committed then Normalize(o)
    else if ctx.Expired? then
      Normalize(o.(kind := GatewayTimeout, eligible := false, credentialCooldown := 0,
                   statusCode := 504, code := BudgetExceeded))
    else Normalize(o)
  }

  /** No upstream error is mapped to the code of a downstream write failure. */
  type MappedCode = c: Code | c != DownstreamWrite witness NoCode

  /** An upstream error as the mappers see it: a stream sentinel, or anything else
      with the eligibility, cooldown, status and code its mapping yields. */
  datatype UpstreamError =
    | StreamSentinel
    | Mapped(eligible: bool, cooldown: int, statusCode: int, code: MappedCode)

  function OutcomeFromErr(err: UpstreamError): Outcome {
    match err
    case StreamSentinel => Normalize(Plain(UpstreamFailed, false, true, 0, 502, UpstreamErrorCode))
    case Mapped(eligible, cooldown, statusCode, code) =>
      Normalize(Plain(UpstreamFailed, false, eligible, cooldown, statusCode, code))
  }

  function OutcomeFromErrCtx(ctx: Context, err: UpstreamError): Outcome {
    WithRequestContext(OutcomeFromErr(err), ctx)
  }

  // ----- the end of a committed stream -----

  datatype StreamError = NoError | TruncatedError | OverflowError | CancelError | OtherError

  /** What attemptStream looks at once the event loop has ended. */
  datatype StreamEnd = StreamEnd(
    writeFailed: bool,
    streamErr: StreamError,
    ctx: Context,
    idleTimedOut: bool,
    sawTerminal: bool)

  /** The stored row's status and error code. */
  function Terminal(e: StreamEnd): (UsageStatus, Code) {
    if e.writeFailed then (StatusCanceled, DownstreamWrite)
    else if e.streamErr != NoError then
      if e.ctx.Expired? then (StatusTimeout, BudgetExceeded)
      else if e.streamErr.TruncatedError? then (StatusTruncated, StreamTruncated)
      else if e.streamErr.OverflowError? then (StatusOverflow, StreamOverflow)
      else if e.streamErr.CancelError? || e.ctx.Canceled? then (StatusCanceled, NoCode)
      else (StatusError, UpstreamErrorCode)
    else if e.idleTimedOut && !e.sawTerminal then (StatusTruncated, StreamIdleTimeout)
    else (StatusOk, NoCode)
  }

  function CommittedKindForStatus(status: UsageStatus): OutcomeKind {
    if status == StatusOk then CommittedSuccess
    else if status == StatusOverflow then GatewayOverflow
    else if status == StatusTimeout then GatewayTimeout
    else if status == StatusCanceled then ClientAborted
    else CommittedPartial
  }

  /** The outcome attemptStream returns after it has written the 200 header. */
  function CommittedStreamOutcome(e: StreamEnd): Outcome {
    var (status, code) := Terminal(e);
    Normalize(Plain(CommittedKindForStatus(status), true, false, 0, 0, code))
  }

  /** How a whole response ends: written, lost on the way out, or never encoded. */
  datatype WriteResult = Written | EncodeError | WriteError

  /** The stored row's status and error code. */
  function WholeTerminal(w: WriteResult): (UsageStatus, Code) {
    match w
    case Written => (StatusOk, NoCode)
    case EncodeError => (StatusError, ResponseEncode)
    case WriteError => (StatusCanceled, DownstreamWrite)
  }

  function WholeOutcome(w: WriteResult): Outcome {
    match w
    case Written => Normalize(Plain(CommittedSuccess, false, false, 0, 0, NoCode))
    case EncodeError => Normalize(Plain(EncodeFailed, false, false, 0, 0, ResponseEncode))
    case WriteError => Normalize(Plain(DownstreamWriteFailed, false, false, 0, 0, DownstreamWrite))
  }

  // ----- properties -----

  /** Normalizing first never changes the decision, whatever flags were set. */
  lemma DecisionIgnoresNormalization(o: Outcome)
    ensures Decide(Normalize(o)) == Decide(o)
  {
    var n := Normalize(o);
    NormalizeTwice(o);
    if n.kind.ClientAborted? && o.code == DownstreamWrite {
      assert Normalize(n).code == DownstreamWrite;
    } else {
      assert Normalize(n) == n;
    }
  }

  /** A committed write failure given only by the legacy flags: the first pass
      reads it as a client abort, the second as a write failure. */
  predicate LegacyWriteFailure(o: Outcome) {
    && o.kind.UpstreamFailed? && o.committed && o.clientGone && o.code == DownstreamWrite
    && !o.success && !o.gatewayTimeout && !o.noUpstreamPenalty
  }

  /** Normalizing is idempotent exactly away from that one legacy form. */
  lemma NormalizeTwice(o: Outcome)
    ensures Normalize(Normalize(o)) == Normalize(o) <==> !LegacyWriteFailure(o)
  {
    var n := Normalize(o);
    NormalizeKindTwice(o);
    if LegacyWriteFailure(o) {
      assert Normalize(n).kind == DownstreamWriteFailed != n.kind;
    } else {
      assert Normalize(n).kind == n.kind;
      StatusIsFilled(o);
    }
  }

  lemma NormalizeKindTwice(o: Outcome)
    ensures NormalizedKind(Normalize(o)) ==
            if LegacyWriteFailure(o) then DownstreamWriteFailed else NormalizedKind(o)
  {
  }

  lemma StatusIsFilled(o: Outcome)
    ensures Normalize(o).usageStatus != NoStatus
    ensures Normalize(o).kind.ClientAborted? ==> Normalize(o).usageStatus != StatusError
  {
  }

  /** What the flags of an outcome without a kind decide, in their order of precedence. */
  lemma LegacyFlagsTell(o: Outcome)
    requires o.kind.UpstreamFailed? && o.usageStatus == NoStatus && o.code != DownstreamWrite
    ensures var d := Decide(o);
      if o.committed && o.success then d.success && d.usageStatus == StatusOk
      else if o.committed && o.gatewayTimeout then d.gatewayTimeout && d.usageStatus == StatusTimeout
      else if o.committed && o.noUpstreamPenalty then
        d.committed && !d.success && !d.penalizeUpstream && !d.downstreamClient && d.usageStatus == StatusOverflow
      else if o.committed && o.clientGone then d.committed && d.downstreamClient && d.usageStatus == StatusCanceled
      else if o.committed then
        d.committed && d.penalizeUpstream
        && d.usageStatus == (if o.code == StreamTruncated || o.code == StreamIdleTimeout then StatusTruncated
                             else if o.code == StreamOverflow then StatusOverflow
                             else if o.code == BudgetExceeded then StatusTimeout
                             else StatusError)
      else if o.clientGone then !d.committed && d.downstreamClient && d.usageStatus == StatusCanceled
      else if o.gatewayTimeout then d.committed && d.gatewayTimeout && d.usageStatus == StatusTimeout
      else !d.committed && !d.success && (d.eligible <==> o.eligible) && (d.penalizeUpstream <==> o.eligible)
           && d.usageStatus == StatusError
  {
  }

  /** What the row of a committed stream says, cause by cause: a failed write comes
      first, then an error of the stream, whose reading depends on the context, and
      last an idle cut that no terminal event has overtaken. */
  predicate StreamRowTells(e: StreamEnd, status: UsageStatus, code: Code) {
    var broken, cut := e.streamErr != NoError, e.idleTimedOut && !e.sawTerminal;
    && (status == StatusOk <==> !e.writeFailed && !broken && !cut)
    && (status == StatusTimeout <==> !e.writeFailed && broken && e.ctx.Expired?)
    && (status == StatusOverflow <==> !e.writeFailed && e.streamErr.OverflowError? && !e.ctx.Expired?)
    && (status == StatusTruncated <==>
          !e.writeFailed && ((e.streamErr.TruncatedError? && !e.ctx.Expired?) || (!broken && cut)))
    && (status == StatusCanceled <==>
          e.writeFailed || (e.streamErr.CancelError? && !e.ctx.Expired?) || (e.streamErr.OtherError? && e.ctx.Canceled?))
    && (status == StatusError <==> !e.writeFailed && e.streamErr.OtherError? && e.ctx.Alive?)
    && (code == DownstreamWrite <==> e.writeFailed)
    && (code == BudgetExceeded <==> status == StatusTimeout)
    && (code == StreamOverflow <==> status == StatusOverflow)
    && (code == StreamTruncated <==> status == StatusTruncated && broken)
    && (code == StreamIdleTimeout <==> status == StatusTruncated && !broken)
    && (code == UpstreamErrorCode <==> status == StatusError)
    && (code == NoCode <==> status == StatusOk || (status == StatusCanceled && !e.writeFailed))
  }

  lemma TerminalTells(e: StreamEnd)
    ensures StreamRowTells(e, Terminal(e).0, Terminal(e).1)
  {
  }

  lemma StatusAgrees(status: UsageStatus, code: Code)
    requires status.StatusOk? || status.StatusError? || status.StatusCanceled? || status.StatusTruncated?
             || status.StatusOverflow? || status.StatusTimeout?
    requires code == DownstreamWrite ==> status == StatusCanceled
    requires status == StatusTruncated <==> code == StreamTruncated || code == StreamIdleTimeout
    requires status == StatusOverflow <==> code == StreamOverflow
    requires status == StatusTimeout <==> code == BudgetExceeded
    ensures
      var d := Decide(Normalize(Plain(CommittedKindForStatus(status), true, false, 0, 0, code)));
      && d.committed && !d.eligible
      && d.usageStatus == status
      && (d.success <==> status == StatusOk)
      && (d.billable <==> status == StatusOk)
      && (d.penalizeUpstream <==> status == StatusError || status == StatusTruncated)
      && (d.downstreamClient <==> status == StatusCanceled)
      && (d.gatewayTimeout <==> status == StatusTimeout)
      && (d.traceOutcome == (if status == StatusOk then TraceOk else CommittedFail))
  {
    DecisionIgnoresNormalization(Plain(CommittedKindForStatus(status), true, false, 0, 0, code));
  }

  /** However a committed stream ends, the decision for failover and target health
      agrees with the stored row: it is committed and final, a success exactly for
      ok, a penalty exactly for error and truncated, and carries the row's status. */
  lemma LaneAgreesWithLedger(e: StreamEnd)
    ensures
      var (status, code) := Terminal(e);
      var d := Decide(CommittedStreamOutcome(e));
      && d.committed && !d.eligible
      && d.usageStatus == status
      && (d.success <==> status == StatusOk)
      && (d.billable <==> status == StatusOk)
      && (d.penalizeUpstream <==> status == StatusError || status == StatusTruncated)
      && (d.downstreamClient <==> status == StatusCanceled)
      && (d.gatewayTimeout <==> status == StatusTimeout)
      && (d.traceOutcome == (if status == StatusOk then TraceOk else CommittedFail))
  {
    TerminalTells(e);
    StatusAgrees(Terminal(e).0, Terminal(e).1);
  }

  /** A whole response agrees with its row in the same way; it never blames the
      target, which did answer. */
  lemma WholeAgreesWithLedger(w: WriteResult)
    ensures
      var status := WholeTerminal(w).0;
      var d := Decide(WholeOutcome(w));
      && d.committed && !d.eligible && !d.penalizeUpstream && !d.gatewayTimeout
      && d.usageStatus == status
      && (d.success <==> status == StatusOk)
      && (d.downstreamClient <==> status == StatusCanceled)
  {
    WholeOutcomeFields(w);
    DecisionIgnoresNormalization(WholeOutcome(w));
  }

  lemma WholeOutcomeFields(w: WriteResult)
    ensures WholeOutcome(w) == match w
      case Written => Outcome(CommittedSuccess, true, true, false, false, false, false, StatusOk, 0, 0, NoCode)
      case EncodeError => Outcome(EncodeFailed, true, false, false, false, false, false, StatusError, 0, 0, ResponseEncode)
      case WriteError => Outcome(DownstreamWriteFailed, true, false, true, false, false, false, StatusCanceled, 0, 0, DownstreamWrite)
  {
  }

  /** No decision blames the target for a success, for a client that left, or for
      the gateway's own budget, and only an upstream failure can be uncommitted and
      worth another target. */
  lemma DecisionIsCoherent(o: Outcome)
    ensures var d := Decide(o);
      && (d.penalizeUpstream ==> !d.success && !d.downstreamClient && !d.gatewayTimeout)
      && (d.success <==> d.billable)
      && (d.success ==> d.committed)
      && (d.gatewayTimeout ==> d.committed)
      && (d.penalizeUpstream && !d.committed ==> d.eligible)
      && d.usageStatus != NoStatus
  {
    StatusIsFilled(o);
  }

  /** The trace and the diagnosis tell the same story as the decision. */
  predicate Coherent(d: LaneDecision) {
    && (d.traceOutcome == TraceOk <==> d.success)
    && (d.diagnosticStatus == DiagnosedOk <==> d.success)
    && (d.diagnosticStatus == DiagnosedTimeout <==> d.gatewayTimeout)
    && (d.diagnosticStatus == DiagnosedCanceled <==> d.downstreamClient)
    && (d.traceReason == BudgetExceeded <== d.gatewayTimeout)
    && (d.diagnosticError == NoCode <== d.success)
  }

  lemma RowIsCoherent(kind: OutcomeKind, committed: bool, eligible: bool, code: Code)
    ensures Coherent(LaneDecisionFor(kind, committed, eligible, code))
  {
  }

  lemma DiagnosisIsCoherent(o: Outcome)
    ensures Coherent(Decide(o))
    ensures Decide(o).traceOutcome == FailSwitch <==> NormalizedKind(o).UpstreamFailed? && o.eligible && o.code != DownstreamWrite
  {
    var n := Normalize(o);
    RowIsCoherent(DownstreamWriteFailed, true, false, n.code);
    RowIsCoherent(n.kind, n.committed, n.eligible, n.code);
  }

  /** A classified error is uncommitted, and its usage status is already filled in. */
  lemma ErrorOutcome(err: UpstreamError)
    ensures OutcomeFromErr(err) ==
            if err.StreamSentinel?
            then Plain(UpstreamFailed, false, true, 0, 502, UpstreamErrorCode).(usageStatus := StatusError)
            else Plain(UpstreamFailed, false, err.eligible, err.cooldown, err.statusCode, err.code).(usageStatus := StatusError)
  {
  }

  /** A request whose context is dead is never retried or blamed on the target: the
      client's departure outranks any error the upstream call reported. */
  lemma DeadContextIsFinal(err: UpstreamError, ctx: Context)
    requires ctx != Alive
    ensures var o := OutcomeFromErrCtx(ctx, err); var d := Decide(o);
      && !d.eligible && !d.penalizeUpstream && o.credentialCooldown == 0
      && (ctx.Canceled? ==> d.downstreamClient && d.usageStatus == StatusCanceled)
      && (ctx.Expired? ==> d.gatewayTimeout && o.statusCode == 504 && o.code == BudgetExceeded)
  {
    ErrorOutcome(err);
    if ctx.Expired? {
      assert OutcomeFromErrCtx(ctx, err).kind == GatewayTimeout;
    } else {
      assert OutcomeFromErrCtx(ctx, err).kind == ClientAborted;
    }
  }

  /** An expired budget is recorded as a timeout exactly when no earlier step had
      filled in a status; a classified upstream error has, so its row says error. */
  lemma ExpiredBudgetStatus(o: Outcome)
    requires !o.committed
    ensures Decide(WithRequestContext(o, Expired)).usageStatus == StatusTimeout
            <==> o.usageStatus == NoStatus || o.usageStatus == StatusTimeout
    ensures forall err :: Decide(OutcomeFromErrCtx(Expired, err)).usageStatus == StatusError
  {
    forall err ensures Decide(OutcomeFromErrCtx(Expired, err)).usageStatus == StatusError {
      ErrorOutcome(err);
    }
  }

  /** Before anything is written, a failed call is classified as committed exactly
      when the gateway's own budget has expired. */
  lemma UncommittedErrorIsCommittedIffExpired(err: UpstreamError, ctx: Context)
    ensures Decide(OutcomeFromErrCtx(ctx, err)).committed <==> ctx.Expired?
  {
    ErrorOutcome(err);
    ReclassifiedCommitment(OutcomeFromErr(err), ctx);
  }

  /** The same for any uncommitted upstream failure, normalized or not. */
  lemma ReclassifiedCommitment(o: Outcome, ctx: Context)
    requires o.kind.UpstreamFailed? && !o.committed && !o.clientGone && !o.gatewayTimeout && o.code != DownstreamWrite
    ensures Decide(WithRequestContext(o, ctx)).committed <==> ctx.Expired?
    ensures !ctx.Expired? ==> WithRequestContext(o, ctx).statusCode == o.statusCode
  {
    var n := match ctx
      case Alive => o
      case Canceled => o.(kind := ClientAborted, eligible := false, credentialCooldown := 0)
      case Expired => o.(kind := GatewayTimeout, eligible := false, credentialCooldown := 0,
                         statusCode := 504, code := BudgetExceeded);
    assert WithRequestContext(o, ctx) == Normalize(n);
    DecisionIgnoresNormalization(n);
    assert NormalizedKind(n) == n.kind;
  }
}
