/** The values of one request: what every step of it meets, the candidate chain it
    walks, and what it writes. */
module Chain {
  import opened Lists
  import opened Options
  import opened Outcomes
  import opened Probes
  import Reservations

  datatype Candidate = Candidate(id: string, hasProvider: bool, anthropic: bool)

  /** The token total of a response, or Missing when upstream reported none. */
  datatype Usage = Missing | Reported(total: int)

  function Actual(u: Usage): Option<int> {
    if u.Missing? then None else Some(u.total)
  }

  datatype Row = Row(status: UsageStatus, code: Code, httpStatus: int)

  /** What attemptStream meets. The header is written only in the last case. */
  datatype StreamAttempt =
    | CallFailed(err: UpstreamError)
    | NothingReceived(streamErr: Option<UpstreamError>, timedOut: bool)
    | Streamed(end: StreamEnd, usage: Usage)

  datatype WholeAttempt =
    | WholeFailed(err: UpstreamError)
    | Answered(write: WriteResult, usage: Usage)

  /** Everything one turn of the candidate loop meets: the context at its head, what
      other requests do to the pool before and during it, the credential, the
      attempt, and the context the attempt's classification reads. */
  datatype Turn = Turn(
    ctx: Context,
    before: seq<PoolOp>,
    claimAt: int,
    credential: bool,
    stream: StreamAttempt,
    whole: WholeAttempt,
    attemptCtx: Context,
    during: seq<PoolOp>,
    recordAt: int)

  datatype Reserve = ReserveError | Refused | Granted(amount: nat)

  /** What other requests hold of the two lifetime quotas. */
  datatype Share = Share(key: nat, user: nat)

  /** What other requests do to the token window between this one's two visits: count
      tokens in and out, or start another minute. */
  datatype WindowMove = Shift(delta: int) | Restart(minute: int, tokens: nat)

  /** `shareBetween` and `shareLater` are what other requests hold when the user's quota
      is reserved, and when this request finalizes; nothing else it does reads them. */
  datatype Plan = Plan(
    routeFound: bool,
    tpmLimit: int,
    est: nat,
    key: Option<Reserve>,
    keyLeaseOk: bool,
    user: Option<Reserve>,
    userLeaseOk: bool,
    shareBetween: Share,
    shareLater: Share,
    minute: int,
    window: WindowMove,
    modelAllowed: bool,
    balanceStatus: int,
    streaming: bool,
    structuredOutput: bool,
    failover: bool,
    maxTargets: nat,
    threshold: int,
    filterAt: int,
    commitMinute: int,
    finalCtx: Context)

  /** Calls this request makes on the pool. */
  datatype Call =
    | Claimed(turn: nat, id: string, token: nat)
    | Recorded(turn: nat, id: string, token: nat, blamed: bool)
    | Released(turn: nat, id: string, token: nat)

  datatype Exit =
    | Rejected
    | Disconnected
    | Committed
    | BudgetExpired
    | Failed

  datatype Next = GoOn | Stop | Leave(exit: Exit)

  /** The calls one turn may leave behind: nothing, an outcome recorded for a target
      that needed no claim, or one claim settled once under its own token. */
  predicate Settled(turn: nat, id: string, calls: seq<Call>) {
    || calls == []
    || (|calls| == 1 && calls[0].Recorded? && calls[0].turn == turn && calls[0].id == id && calls[0].token == 0)
    || (|calls| == 2 && calls[0].Claimed? && calls[0].turn == turn && calls[0].id == id
        && !calls[1].Claimed? && calls[1].turn == turn && calls[1].id == id && calls[1].token == calls[0].token)
  }

  /** What became of one turn: the context was dead at its head, the breaker had no slot
      to give, there was no credential, or the target was tried. */
  datatype Fate = Gone | Busy | Unkeyed | Tried(decision: LaneDecision)

  /** The loop moves on after such a turn if there is another candidate. */
  predicate PassesOn(f: Fate) {
    f.Busy? || f.Unkeyed? || (f.Tried? && !f.decision.committed && f.decision.eligible)
  }

  /** A tried turn's outcome is reported to the breaker. */
  predicate EndsRecorded(calls: seq<Call>) {
    calls != [] && calls[|calls| - 1].Recorded?
  }

  /** A turn's fate is what its oracle makes it, and its pool calls match: settled within
      the turn, reported exactly if the decision is committed or blames the target. */
  predicate FateFits(p: Plan, id: string, turn: nat, t: Turn, f: Fate, calls: seq<Call>) {
    && Settled(turn, id, calls)
    && (f.Gone? <==> t.ctx != Alive)
    && match f
       case Gone => calls == []
       case Busy => p.failover && p.threshold > 0 && calls == []
       case Unkeyed => !t.credential && !EndsRecorded(calls)
       case Tried(d) =>
         && t.credential && d == Decide(OutcomeOf(p.streaming, t))
         && (EndsRecorded(calls) <==> d.committed || d.penalizeUpstream)
         && (EndsRecorded(calls) ==> (calls[|calls| - 1].blamed <==> d.penalizeUpstream))
  }

  /** Names a position so that facts about it are used only where it is named. */
  predicate At(i: nat) {
    true
  }

  // ----- the candidate set -----

  function PreflightCandidates(failover: bool, limit: int, cands: seq<Candidate>): seq<Candidate> {
    var l := if limit <= 0 || limit > |cands| then |cands| else limit;
    cands[..if !failover && l > 1 then 1 else l]
  }

  function Limit(p: Plan, cands: seq<Candidate>): nat {
    if !p.failover then 1 else if p.maxTargets < |cands| then p.maxTargets else |cands|
  }

  predicate Serviceable(p: Plan, c: Candidate) {
    p.structuredOutput ==> c.hasProvider && !c.anthropic
  }

  function KeepAvailable(s: PoolState, now: int, cands: seq<Candidate>): seq<Candidate> {
    Keep((c: Candidate) => Available(s, c.id, now), cands)
  }

  function KeepServiceable(p: Plan, cands: seq<Candidate>): seq<Candidate> {
    Keep((c: Candidate) => Serviceable(p, c), cands)
  }

  function Reachable(p: Plan, s: PoolState, cands: seq<Candidate>): seq<Candidate> {
    if !p.failover then cands
    else
      var avail := KeepAvailable(s, p.filterAt, cands);
      if avail != [] then avail else cands
  }

  /** The candidates the loop walks. */
  function Active(p: Plan, s: PoolState, cands: seq<Candidate>): (r: seq<Candidate>)
    ensures |r| <= Limit(p, cands)
  {
    var kept := Kept(p, s, cands);
    if |kept| > Limit(p, cands) then kept[..Limit(p, cands)] else kept
  }

  function Preflight(p: Plan, cands: seq<Candidate>): seq<Candidate> {
    PreflightCandidates(p.failover, Limit(p, cands), cands)
  }

  function Kept(p: Plan, s: PoolState, cands: seq<Candidate>): seq<Candidate> {
    KeepServiceable(p, Reachable(p, s, cands))
  }

  predicate Distinct(cands: seq<Candidate>) {
    forall i, j :: 0 <= i < j < |cands| ==> cands[i] != cands[j]
  }

  predicate Covers(a: seq<Candidate>, b: seq<Candidate>) {
    forall c :: c in b ==> c in a
  }

  /** One test for both filters; the breaker's is off when it would leave nothing. */
  predicate Wanted(p: Plan, s: PoolState, breaker: bool, c: Candidate) {
    Serviceable(p, c) && (breaker ==> Available(s, c.id, p.filterAt))
  }

  lemma KeptAtOnce(p: Plan, s: PoolState, cands: seq<Candidate>)
    ensures var breaker := p.failover && KeepAvailable(s, p.filterAt, cands) != [];
            Kept(p, s, cands) == Keep((c: Candidate) => Wanted(p, s, breaker, c), cands)
  {
    var breaker := p.failover && KeepAvailable(s, p.filterAt, cands) != [];
    var up, fit := (c: Candidate) => Available(s, c.id, p.filterAt), (c: Candidate) => Serviceable(p, c);
    var wanted := (c: Candidate) => Wanted(p, s, breaker, c);
    if breaker {
      KeepTwice(up, fit, wanted, cands);
    } else {
      KeepTwice((c: Candidate) => true, fit, wanted, cands);
      KeepAll((c: Candidate) => true, cands);
    }
  }

  /** Filtering keeps the order: what is kept of the first `k` comes first, and it is
      shorter only if one of them is gone. */
  lemma KeptSplits(p: Plan, s: PoolState, cands: seq<Candidate>, k: nat)
    returns (head: seq<Candidate>, tail: seq<Candidate>)
    requires k <= |cands|
    ensures Kept(p, s, cands) == head + tail
    ensures |head| <= k && Covers(cands[..k], head) && Covers(cands[k..], tail)
    ensures if |head| < k then !Covers(Kept(p, s, cands), cands[..k]) else head == cands[..k]
  {
    var a, b := cands[..k], cands[k..];
    assert a + b == cands;
    var breaker := p.failover && KeepAvailable(s, p.filterAt, cands) != [];
    var wanted := (c: Candidate) => Wanted(p, s, breaker, c);
    KeptAtOnce(p, s, cands);
    KeepSplits(wanted, a, b);
    KeepOnly(wanted, a);
    KeepOnly(wanted, b);
    KeepAll(wanted, a);
    head, tail := Keep(wanted, a), Keep(wanted, b);
    KeepOnly(wanted, cands);
  }

  /** The target is unknown to the breaker or past its cooldown. */
  predicate Up(s: PoolState, id: string, now: int) {
    id in s.targets && s.targets[id].until.Some? ==> s.targets[id].until.value <= now
  }

  /** Which candidates are kept, and that the loop walks the first of them. */
  lemma ActiveExactly(p: Plan, s: PoolState, cands: seq<Candidate>)
    ensures forall c :: c in Kept(p, s, cands) <==>
              c in cands && (p.structuredOutput ==> c.hasProvider && !c.anthropic)
              && (p.failover && (exists d :: d in cands && Up(s, d.id, p.filterAt)) ==> Up(s, c.id, p.filterAt))
    ensures Active(p, s, cands) <= Kept(p, s, cands)
    ensures var limit := if !p.failover then 1 else if p.maxTargets < |cands| then p.maxTargets else |cands|;
      |Active(p, s, cands)| == if |Kept(p, s, cands)| < limit then |Kept(p, s, cands)| else limit
  {
    KeptAtOnce(p, s, cands);
    var breaker := p.failover && KeepAvailable(s, p.filterAt, cands) != [];
    SomeUp(p, s, cands);
    KeepOnly((c: Candidate) => Wanted(p, s, breaker, c), cands);
    forall c ensures Wanted(p, s, breaker, c) <==>
      (p.structuredOutput ==> c.hasProvider && !c.anthropic) && (breaker ==> Up(s, c.id, p.filterAt))
    {
    }
  }

  lemma SomeUp(p: Plan, s: PoolState, cands: seq<Candidate>)
    ensures KeepAvailable(s, p.filterAt, cands) != [] <==> exists d :: d in cands && Up(s, d.id, p.filterAt)
  {
    var up := (c: Candidate) => Available(s, c.id, p.filterAt);
    var avail := KeepAvailable(s, p.filterAt, cands);
    KeepOnly(up, cands);
    if avail != [] {
      assert avail[0] in avail && up(avail[0]);
    }
    if d: Candidate :| d in cands && Up(s, d.id, p.filterAt) {
      assert up(d) && d in avail;
    }
  }

  /** What the request may attempt lies within what the balance check saw exactly
      when nothing it saw was filtered out, or nothing beyond it was kept. */
  lemma PreflightCoversExactly(p: Plan, s: PoolState, cands: seq<Candidate>)
    requires Distinct(cands)
    ensures var seen, kept := Preflight(p, cands), Kept(p, s, cands);
      Covers(seen, Active(p, s, cands)) <==> Covers(kept, seen) || Covers(seen, kept)
  {
    var seen, kept, active := Preflight(p, cands), Kept(p, s, cands), Active(p, s, cands);
    var k := |seen|;
    var head, tail := KeptSplits(p, s, cands, k);
    assert tail != [] ==> tail[0] in cands[k..];
    if |head| < k && tail != [] {
      assert active[|head|] == tail[0];
      assert tail[0] in cands[k..] && tail[0] !in seen;
      assert tail[0] in kept;
    } else if tail == [] {
      assert kept == head;
    } else {
      assert active == head[..|active|];
    }
  }

  /** With a budget of one target, a cooling first target sends the request to a
      second one that no balance check has seen. */
  lemma AttemptsWhatWasNotPreflighted(p: Plan, s: PoolState, a: Candidate, b: Candidate)
    requires p.failover && p.maxTargets == 1 && !p.structuredOutput && a != b
    requires !Available(s, a.id, p.filterAt) && Available(s, b.id, p.filterAt)
    ensures Preflight(p, [a, b]) == [a] && Active(p, s, [a, b]) == [b]
  {
    var up := (c: Candidate) => Available(s, c.id, p.filterAt);
    assert [a, b][..1] == [a];
    KeepOnly(up, [a]);
    assert Keep(up, [a, b]) == Keep(up, [a]) + [b];
    AllServiceable(p, [b]);
  }

  /** A failure is never answered with 200, nor with the zero that means no target. */
  function FailureRow(o: Outcome): (r: Row)
    ensures r.status == Decide(o).usageStatus
    ensures r.httpStatus != 0 && r.httpStatus != 200
  {
    var d := Decide(o);
    Row(d.usageStatus,
        if d.kind.ClientAborted? then NoCode else if d.kind.GatewayTimeout? then BudgetExceeded else d.diagnosticError,
        if o.statusCode == 0 || o.statusCode == 200 then 502 else o.statusCode)
  }

  lemma ActiveFits(p: Plan, s: PoolState, cands: seq<Candidate>)
    ensures |Active(p, s, cands)| <= |cands|
  {
    KeepOnly((c: Candidate) => Available(s, c.id, p.filterAt), cands);
    KeepOnly((c: Candidate) => Serviceable(p, c), Reachable(p, s, cands));
  }

  function BooksOf(s: Share): Reservations.Books {
    Reservations.Books(s.key, s.user, 0, 0, 0, 0)
  }

  /** Other requests change what they hold from `s` to `s'`. */
  function Moved(b: Reservations.Books, s: Share, s': Share): Reservations.Books {
    b.(keyTotal := b.keyTotal - s.key + s'.key, userTotal := b.userTotal - s.user + s'.user)
  }

  lemma AfterKeyMoves(s: Share, s': Share, durable: bool, p: Plan)
    ensures Moved(AfterKey(BooksOf(s), durable, p), s, s') == AfterKey(BooksOf(s'), durable, p)
  {
  }

  lemma AfterBothMoves(s: Share, s': Share, durable: bool, p: Plan)
    ensures Moved(AfterUser(AfterKey(BooksOf(s), durable, p), durable, p), s, s')
            == AfterUser(AfterKey(BooksOf(s'), durable, p), durable, p)
  {
  }

  /** What other requests hold at the end, if they held `before` at first: a refusal
      answers before they can have changed it any further. */
  function ShareAtEnd(p: Plan, before: Share): Share {
    if !p.routeFound || p.key == Some(Refused) then before
    else if p.user == Some(Refused) then p.shareBetween
    else p.shareLater
  }

  /** The token window after the other requests' calls. */
  function MovedWindow(p: Plan, minute: int, tokens: int): (int, int) {
    match p.window
    case Shift(delta) => (minute, Reservations.Minus(tokens + delta, 0))
    case Restart(m, t) => (m, t)
  }

  /** The token window once this request has corrected its estimate to `corrected`. */
  function CorrectedWindow(p: Plan, w: (int, int), corrected: Option<int>): (int, int) {
    if corrected.None? || corrected.value == p.est then w
    else (p.commitMinute, Reservations.Minus((if w.0 == p.commitMinute then w.1 else 0) + corrected.value, p.est))
  }

  /** Within one minute, the window ends at what others count in it plus known usage, or
      plus the estimate when usage is missing. */
  lemma WindowCountsUsage(p: Plan, start: nat, corrected: Option<int>)
    requires p.window.Shift? && p.minute == p.commitMinute && start + p.window.delta >= 0
    ensures CorrectedWindow(p, MovedWindow(p, p.minute, start + p.est), corrected)
            == (p.minute, if corrected.None? then start + p.window.delta + p.est
                          else Reservations.Minus(start + p.window.delta + corrected.value, 0))
  {
  }

  /** In another minute only usage beyond the estimate is counted. */
  lemma LaterWindowCountsTheExcess(p: Plan, w: (int, int), actual: int)
    requires w.0 != p.commitMinute && actual != p.est
    ensures CorrectedWindow(p, w, Some(actual)) == (p.commitMinute, if actual > p.est then actual - p.est else 0)
    ensures CorrectedWindow(p, w, None) == w
  {
  }

  function AfterKey(b: Reservations.Books, durable: bool, p: Plan): Reservations.Books {
    if p.key.Some? && p.key.value.Granted?
    then Reservations.ReserveKey(b, durable, p.key.value.amount, p.keyLeaseOk) else b
  }

  function AfterUser(b: Reservations.Books, durable: bool, p: Plan): Reservations.Books {
    if p.user.Some? && p.user.value.Granted?
    then Reservations.ReserveUser(b, durable, p.user.value.amount, p.userLeaseOk) else b
  }

  predicate QuotaRefused(p: Plan) {
    p.key == Some(Refused) || p.user == Some(Refused)
  }

  /** Admission gets as far as a token window that has a limit. */
  predicate WindowAsked(p: Plan) {
    p.routeFound && !QuotaRefused(p) && p.tpmLimit > 0
  }

  /** The status a request is refused with before its chain is looked at, or 0; `start`
      is what the token window already counts. */
  function Refusal(p: Plan, start: int): int {
    if !p.routeFound then 404
    else if QuotaRefused(p) then 429
    else if p.tpmLimit > 0 && (p.est > p.tpmLimit || start + p.est > p.tpmLimit) then 429
    else if !p.modelAllowed then 403
    else p.balanceStatus
  }

  /** The refusals in the order of the checks. */
  lemma RefusalTells(p: Plan, start: int)
    ensures var full := p.key == Some(Refused) || p.user == Some(Refused);
            var fits := p.tpmLimit <= 0 || (p.est <= p.tpmLimit && start + p.est <= p.tpmLimit);
      && (!p.routeFound ==> Refusal(p, start) == 404)
      && (p.routeFound && (full || !fits) ==> Refusal(p, start) == 429)
      && (p.routeFound && !full && fits && !p.modelAllowed ==> Refusal(p, start) == 403)
      && (p.routeFound && !full && fits && p.modelAllowed ==> Refusal(p, start) == p.balanceStatus)
  {
  }

  function AdmissionOf(p: Plan): Reservations.Admission {
    Reservations.Admission(
      if p.key.Some? && p.key.value.Granted? then Some(p.key.value.amount) else None,
      if p.key != Some(Refused) && p.user.Some? && p.user.value.Granted? then Some(p.user.value.amount) else None,
      p.keyLeaseOk, p.userLeaseOk)
  }

  lemma AdmitsInTurn(b: Reservations.Books, durable: bool, p: Plan)
    ensures Reservations.Admit(b, durable, AdmissionOf(p))
            == if p.key == Some(Refused) then b else AfterUser(AfterKey(b, durable, p), durable, p)
  {
  }

  lemma {:induction false} AllServiceable(p: Plan, cands: seq<Candidate>)
    requires !p.structuredOutput
    ensures KeepServiceable(p, cands) == cands
  {
    if cands != [] {
      AllServiceable(p, cands[..|cands| - 1]);
    }
  }

  /** The outcome a request starts out with. */
  const NothingTried := Plain(UpstreamFailed, false, false, 0, 0, NoCode)

  function NoProvider(): (o: Outcome)
    ensures !Decide(o).committed && Decide(o).eligible
  {
    Plain(UpstreamFailed, false, true, 0, 502, UpstreamErrorCode)
  }

  /** The pool after a settled attempt, and the calls that settle it. */
  function SettledPool(s: PoolState, id: string, threshold: int, t: Turn, token: nat, claimed: bool, d: LaneDecision): PoolState {
    var s' := AfterAll(s, t.during);
    if d.penalizeUpstream then AfterFailure(s', id, token, threshold, t.recordAt)
    else if d.committed then AfterSuccess(s', id, token, t.recordAt)
    else if claimed then AfterRelease(s', id, token)
    else s'
  }

  function SettlingCalls(turn: nat, id: string, token: nat, claimed: bool, d: LaneDecision): seq<Call> {
    if d.committed || d.penalizeUpstream then [Recorded(turn, id, token, d.penalizeUpstream)]
    else if claimed then [Released(turn, id, token)]
    else []
  }

  /** The breaker is in use and has no slot for this turn. */
  predicate SlotRefused(p: Plan, s: PoolState, id: string, t: Turn) {
    p.failover && p.threshold > 0 && !ClaimResult(AfterAll(s, t.before), id, t.claimAt).2
  }

  /** A turn is refused exactly if the breaker is in use and the target, after what the
      others did, is cooling or has a probe of its current cycle out. */
  lemma SlotRefusedExactly(p: Plan, s: PoolState, id: string, t: Turn)
    ensures var s' := AfterAll(s, t.before);
      SlotRefused(p, s, id, t) <==>
        && p.failover && p.threshold > 0 && id in s'.targets
        && ((s'.targets[id].until.Some? && t.claimAt < s'.targets[id].until.value)
            || (s'.targets[id].recovering && s'.targets[id].token != 0 && s'.targets[id].tokenCycle == s'.targets[id].cycle))
  {
    ClaimTells(AfterAll(s, t.before), id, t.claimAt);
  }

  lemma StillFree(s: PoolState, s': PoolState, tokens: set<nat>)
    requires Rely(s, s')
    requires forall t :: t in tokens ==> t <= s.lastToken && !Held(s, t)
    ensures forall t :: t in tokens ==> t <= s'.lastToken && !Held(s', t)
  {
  }

  predicate StreamBudgetExpired(a: StreamAttempt, ctx: Context) {
    ctx.Expired? && (a.CallFailed? || (a.NothingReceived? && a.streamErr.Some?))
  }

  function StreamOutcome(a: StreamAttempt, ctx: Context): Outcome {
    match a
    case CallFailed(err) => OutcomeFromErrCtx(ctx, err)
    case NothingReceived(streamErr, timedOut) =>
      if streamErr.Some? then OutcomeFromErrCtx(ctx, streamErr.value)
      else if timedOut then Plain(UpstreamFailed, false, true, 0, 504, UpstreamTimeoutCode)
      else Plain(UpstreamFailed, false, true, 0, 502, UpstreamErrorCode)
    case Streamed(end, _) => CommittedStreamOutcome(end)
  }

  function WholeAttemptOutcome(a: WholeAttempt, ctx: Context): Outcome {
    match a
    case WholeFailed(err) => OutcomeFromErrCtx(ctx, err)
    case Answered(write, _) => WholeOutcome(write)
  }

  /** The classification of a turn's attempt. */
  function OutcomeOf(streaming: bool, t: Turn): Outcome {
    if streaming then StreamOutcome(t.stream, t.attemptCtx) else WholeAttemptOutcome(t.whole, t.attemptCtx)
  }

  /** What a turn leaves for the answer of the whole chain. */
  function OutcomeLeft(p: Plan, f: Fate, t: Turn): Outcome {
    if f.Tried? then OutcomeOf(p.streaming, t) else NoProvider()
  }

  /** The request budget ran out while this turn's attempt had written nothing. */
  predicate BudgetTurn(streaming: bool, t: Turn) {
    if streaming then StreamBudgetExpired(t.stream, t.attemptCtx)
    else t.whole.WholeFailed? && t.attemptCtx.Expired?
  }

  /** The turn's attempt reached the client. */
  predicate Wrote(streaming: bool, t: Turn) {
    if streaming then t.stream.Streamed? else t.whole.Answered?
  }

  function WholeRow(w: WriteResult): Row {
    Row(WholeTerminal(w).0, WholeTerminal(w).1, if w.EncodeError? then 500 else 200)
  }

  function TurnRow(streaming: bool, t: Turn): Row
    requires Wrote(streaming, t)
  {
    if streaming then Row(Terminal(t.stream.end).0, Terminal(t.stream.end).1, 200) else WholeRow(t.whole.write)
  }

  /** Known usage corrects the token window; a response that could not be encoded
      counts as none; missing usage leaves the estimate standing. */
  function TurnActual(streaming: bool, t: Turn): Option<int>
    requires Wrote(streaming, t)
  {
    if streaming then Actual(t.stream.usage)
    else if t.whole.write.EncodeError? then Some(0)
    else Actual(t.whole.usage)
  }

  // ----- the same from what the turn met, cause by cause -----

  /** A failure that wrote nothing. `ctxRead` says that its classification asks whether
      the request is still alive; a stream that ends without error does not. */
  datatype Setback = Setback(eligible: bool, statusCode: int, code: Code, ctxRead: bool)

  function ErrorMet(err: UpstreamError): Setback {
    if err.StreamSentinel? then Setback(true, 502, UpstreamErrorCode, true)
    else Setback(err.eligible, err.statusCode, err.code, true)
  }

  function FailureMet(streaming: bool, t: Turn): Setback
    requires !Wrote(streaming, t)
  {
    if !streaming then ErrorMet(t.whole.err)
    else match t.stream
      case CallFailed(err) => ErrorMet(err)
      case NothingReceived(Some(err), _) => ErrorMet(err)
      case NothingReceived(None, true) => Setback(true, 504, UpstreamTimeoutCode, false)
      case NothingReceived(None, false) => Setback(true, 502, UpstreamErrorCode, false)
  }

  predicate AbandonedAt(streaming: bool, t: Turn) {
    !Wrote(streaming, t) && FailureMet(streaming, t).ctxRead && t.attemptCtx.Canceled?
  }

  /** The decision of an attempt: an answer is final and blames a streamed target for
      error and truncation alone; a failure is retried and blamed exactly if it is
      worth another target and the request is alive, as far as it is asked. */
  predicate DecisionTells(streaming: bool, t: Turn, d: LaneDecision) {
    if Wrote(streaming, t) then
      var status := TurnRow(streaming, t).status;
      && d.committed && !d.eligible && d.usageStatus == status
      && (d.success <==> status == StatusOk)
      && (d.penalizeUpstream <==> streaming && (status == StatusError || status == StatusTruncated))
    else
      var f := FailureMet(streaming, t);
      && !d.success
      && (d.eligible <==> f.eligible && (f.ctxRead ==> t.attemptCtx.Alive?))
      && (d.penalizeUpstream <==> d.eligible)
      && (d.committed <==> f.ctxRead && t.attemptCtx.Expired?)
      && (d.downstreamClient <==> f.ctxRead && t.attemptCtx.Canceled?)
  }

  /** The outcome of a failure, field by field. */
  function OutcomeMet(f: Setback, ctx: Context, cooldown: int): Outcome {
    if !f.ctxRead then Plain(UpstreamFailed, false, f.eligible, 0, f.statusCode, f.code)
    else match ctx
      case Alive => Outcome(UpstreamFailed, false, false, false, false, false, f.eligible, StatusError, cooldown, f.statusCode, f.code)
      case Canceled => Outcome(ClientAborted, false, false, true, false, false, false, StatusCanceled, 0, f.statusCode, f.code)
      case Expired => Outcome(GatewayTimeout, true, false, false, false, true, false, StatusError, 0, 504, BudgetExceeded)
  }

  lemma ErrorOutcomeMet(err: UpstreamError, ctx: Context)
    ensures OutcomeFromErrCtx(ctx, err) == OutcomeMet(ErrorMet(err), ctx, if err.Mapped? then err.cooldown else 0)
  {
    ErrorOutcome(err);
  }

  lemma UnwrittenOutcome(streaming: bool, t: Turn) returns (cooldown: int)
    requires !Wrote(streaming, t)
    ensures OutcomeOf(streaming, t) == OutcomeMet(FailureMet(streaming, t), t.attemptCtx, cooldown)
    ensures FailureMet(streaming, t).code != DownstreamWrite
  {
    cooldown := 0;
    var err := if !streaming then Some(t.whole.err)
               else if t.stream.CallFailed? then Some(t.stream.err) else t.stream.streamErr;
    if err.Some? {
      cooldown := if err.value.Mapped? then err.value.cooldown else 0;
      ErrorOutcomeMet(err.value, t.attemptCtx);
    }
  }

  lemma MetTells(f: Setback, ctx: Context, cooldown: int)
    requires f.code != DownstreamWrite
    ensures var d := Decide(OutcomeMet(f, ctx, cooldown));
      && !d.success
      && (d.eligible <==> f.eligible && (f.ctxRead ==> ctx.Alive?))
      && (d.penalizeUpstream <==> d.eligible)
      && (d.committed <==> f.ctxRead && ctx.Expired?)
      && (d.downstreamClient <==> f.ctxRead && ctx.Canceled?)
  {
  }

  lemma TriedTells(streaming: bool, t: Turn)
    ensures DecisionTells(streaming, t, Decide(OutcomeOf(streaming, t)))
  {
    if !Wrote(streaming, t) {
      var cooldown := UnwrittenOutcome(streaming, t);
      MetTells(FailureMet(streaming, t), t.attemptCtx, cooldown);
    } else if streaming {
      LaneAgreesWithLedger(t.stream.end);
    } else {
      WholeAgreesWithLedger(t.whole.write);
    }
  }

  /** What an attempt that wrote stores, and to what usage it corrects the window. */
  predicate AnswerTells(streaming: bool, t: Turn, row: Row, corrected: Option<int>)
    requires Wrote(streaming, t)
  {
    if streaming then
      && StreamRowTells(t.stream.end, row.status, row.code) && row.httpStatus == 200
      && UsageTells(t.stream.usage, corrected)
    else match t.whole.write
      case Written => row == Row(StatusOk, NoCode, 200) && UsageTells(t.whole.usage, corrected)
      case EncodeError => row == Row(StatusError, ResponseEncode, 500) && corrected == Some(0)
      case WriteError => row == Row(StatusCanceled, DownstreamWrite, 200) && UsageTells(t.whole.usage, corrected)
  }

  /** Known usage is what the window is corrected to; unknown usage corrects nothing. */
  predicate UsageTells(u: Usage, corrected: Option<int>) {
    if u.Missing? then corrected == None else corrected == Some(u.total)
  }

  lemma TurnAnswerTells(streaming: bool, t: Turn)
    requires Wrote(streaming, t)
    ensures AnswerTells(streaming, t, TurnRow(streaming, t), TurnActual(streaming, t))
  {
    if streaming {
      TerminalTells(t.stream.end);
    }
  }

  /** What the last turn of a failed chain leaves to tell. */
  function SetbackLeft(streaming: bool, f: Fate, t: Turn): Setback {
    if f.Tried? && !Wrote(streaming, t) then FailureMet(streaming, t) else Setback(true, 502, UpstreamErrorCode, false)
  }

  const NothingToTell := Setback(false, 0, NoCode, false)

  /** The row of a failed chain: the client's departure and the budget outrank the last
      setback, which otherwise keeps its status and code, never 200 and never none. */
  predicate FailureTells(ctx: Context, f: Setback, row: Row) {
    match ctx
    case Canceled => row.status == StatusCanceled && row.code == NoCode
    case Expired => row == Row(if f.ctxRead then StatusError else StatusTimeout, BudgetExceeded, 504)
    case Alive => row == Row(StatusError, f.code, if f.statusCode == 0 || f.statusCode == 200 then 502 else f.statusCode)
  }

  lemma MetFailureTells(f: Setback, attempt: Context, cooldown: int, ctx: Context)
    requires f.code != DownstreamWrite && (f.ctxRead ==> !attempt.Expired? && (attempt.Canceled? ==> ctx.Canceled?))
    ensures FailureTells(ctx, f, FailureRow(WithRequestContext(OutcomeMet(f, attempt, cooldown), ctx)))
    ensures Decide(WithRequestContext(OutcomeMet(f, attempt, cooldown), ctx)).downstreamClient <==> ctx.Canceled?
  {
  }

  /** A request that was abandoned during its last attempt is abandoned at the end. */
  lemma ChainFailureTells(p: Plan, f: Fate, t: Turn, ctx: Context)
    requires f.Tried? ==> !Wrote(p.streaming, t) && !Decide(OutcomeOf(p.streaming, t)).committed
    requires f.Tried? && AbandonedAt(p.streaming, t) ==> ctx.Canceled?
    ensures var o := WithRequestContext(OutcomeLeft(p, f, t), ctx);
      && FailureTells(ctx, SetbackLeft(p.streaming, f, t), FailureRow(o))
      && (Decide(o).downstreamClient <==> ctx.Canceled?)
  {
    var s := SetbackLeft(p.streaming, f, t);
    if f.Tried? {
      var cooldown := UnwrittenOutcome(p.streaming, t);
      MetTells(s, t.attemptCtx, cooldown);
      MetFailureTells(s, t.attemptCtx, cooldown, ctx);
    } else {
      MetFailureTells(s, Alive, 0, ctx);
    }
  }

  lemma BudgetTurnIsCommitted(streaming: bool, t: Turn)
    requires BudgetTurn(streaming, t)
    ensures Decide(OutcomeOf(streaming, t)).committed
  {
    DeadEnd(if !streaming then t.whole.err else if t.stream.CallFailed? then t.stream.err else t.stream.streamErr.value,
            t.attemptCtx);
  }

  lemma DeadEnd(err: UpstreamError, ctx: Context)
    ensures var d := Decide(OutcomeFromErrCtx(ctx, err));
            (d.committed <==> ctx.Expired?) && (d.committed ==> d.gatewayTimeout)
  {
    UncommittedErrorIsCommittedIffExpired(err, ctx);
    if ctx.Expired? {
      DeadContextIsFinal(err, ctx);
    }
  }

  /** A stream that wrote nothing is final exactly when its budget ran out. */
  lemma UnansweredStream(a: StreamAttempt, ctx: Context)
    requires !a.Streamed?
    ensures var d := Decide(StreamOutcome(a, ctx));
            (d.committed <==> StreamBudgetExpired(a, ctx)) && (d.committed ==> d.gatewayTimeout)
  {
    match a
    case CallFailed(err) => DeadEnd(err, ctx);
    case NothingReceived(streamErr, _) =>
      if streamErr.Some? {
        DeadEnd(streamErr.value, ctx);
      }
  }
}
