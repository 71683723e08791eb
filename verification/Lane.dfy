/** One request through the gateway: admission, the candidate chain, and the final
    settlement, over an arbitrary oracle of what every step meets. */
module Lane {
  import opened Chain
  import opened Lists
  import opened Options
  import opened Outcomes
  import opened Probes
  import Reservations

  /** The class carries one request. `calls` says which store calls of its one
      finalization succeed; `durable` that it has a request id. */
  class Request {
    const pool: Pool
    const store: Reservations.Store
    const limiter: Reservations.Limiter
    const durable: bool
    const calls: Reservations.Calls
    const plan: Plan
    const turns: seq<Turn>

    var rate: Reservations.RateCommit?
    var out: Outcome
    /** Status codes of the response heads written, and the usage rows stored. */
    var heads: seq<int>
    var rows: seq<Row>

    /** The pool calls of the current turn, and those of the turns before it. */
    ghost var log: seq<Call>
    ghost var history: seq<seq<Call>>
    ghost var fates: seq<Fate>
    ghost var tokens: set<nat>
    /** What other requests hold of the quotas by now. */
    var elsewhere: Share
    /** What the request holds once admission is over. */
    ghost var held: Reservations.Books
    ghost var heldMinute: int
    ghost var heldTokens: int
    ghost var heldTpm: int
    /** The usage the token window was corrected to; None when it was left alone. */
    ghost var corrected: Option<int>

    constructor (pool: Pool, store: Reservations.Store, limiter: Reservations.Limiter, durable: bool,
                 calls: Reservations.Calls, plan: Plan, turns: seq<Turn>, elsewhere: Share)
      ensures this.pool == pool && this.store == store && this.limiter == limiter && this.durable == durable
      ensures this.calls == calls && this.plan == plan && this.turns == turns
      ensures rate == null && heads == [] && rows == [] && history == [] && fates == [] && tokens == {}
      ensures out == NothingTried && this.elsewhere == elsewhere
    {
      this.elsewhere := elsewhere;
      this.pool, this.store, this.limiter, this.durable, this.calls, this.plan, this.turns :=
        pool, store, limiter, durable, calls, plan, turns;
      rate, heads, rows := null, [], [];
      out := NothingTried;
      log, history, fates, tokens := [], [], [], {};
      held := Reservations.Books(0, 0, 0, 0, 0, 0);
      heldMinute, heldTokens, heldTpm, corrected := 0, 0, 0, None;
    }

    ghost function BooksNow(): Reservations.Books
      reads `rate, rate, store
    {
      Reservations.Books(store.keyTotal, store.userTotal, store.keyLease, store.userLease,
                         if rate == null then 0 else rate.quotaReserved,
                         if rate == null then 0 else rate.userQuotaReserved)
    }

    ghost function Corrections(): seq<int>
      reads `rate, rate
    {
      if rate == null then [] else rate.corrections
    }

    ghost predicate Linked()
      reads `rate, rate, limiter
    {
      && limiter.Valid()
      && (rate != null ==> rate.limiter == limiter && rate.store == store && rate.durable == durable)
    }

    /** Nothing is written, nothing is given back. */
    ghost predicate Open()
      reads `heads, `rows, `corrected, `rate, `held, `heldTpm, `heldMinute, `heldTokens, rate, store, limiter
    {
      && Linked()
      && heads == [] && rows == [] && corrected == None
      && BooksNow() == held
      && Corrections() == []
      && (rate == null ==> heldTpm == 0)
      && (rate != null ==> rate.reserved == heldTpm && rate.limit == (if plan.tpmLimit > 0 then plan.tpmLimit else 0))
      && limiter.minute == heldMinute && limiter.tokens == heldTokens
    }

    /** The lifetime quota went through one finalization, and the token window was
        corrected once to `corrected`, or deliberately not at all. */
    ghost predicate Closed()
      reads `corrected, `rate, `held, `heldTpm, `heldMinute, `heldTokens, rate, store, limiter
    {
      && Linked()
      && (rate == null ==> heldTpm == 0)
      && BooksNow() == (if rate == null then held else Reservations.ReleaseQuota(held, durable, calls))
      && Corrections() == (if rate == null || corrected.None? then [] else [corrected.value])
      && (rate == null || corrected.None? || plan.tpmLimit <= 0 || heldTpm == corrected.value ==>
            limiter.minute == heldMinute && limiter.tokens == heldTokens)
      && (rate != null && corrected.Some? && plan.tpmLimit > 0 && heldTpm != corrected.value ==>
            limiter.minute == plan.commitMinute
            && limiter.tokens == Reservations.Minus(
                 (if heldMinute == plan.commitMinute then heldTokens else 0) + corrected.value, heldTpm))
    }

    /** rate.Commit on a finalizer that may be nil. */
    method CommitRate(actual: int)
      requires Open()
      modifies this`corrected, rate, store, limiter
      ensures Closed() && corrected == Some(actual)
    {
      if rate != null {
        rate.Commit(plan.commitMinute, actual, calls);
      }
      corrected := Some(actual);
    }

    method ReleaseRate()
      requires Open()
      modifies this`corrected, rate, store
      ensures Closed() && corrected == None
    {
      if rate != null {
        rate.ReleaseReserved(calls);
      }
      corrected := None;
    }

    /** The callback of a committed row: a full correction when usage is known, the
        quota alone when it is not. */
    method Settle(usage: Usage)
      requires Open()
      modifies this`corrected, rate, store, limiter
      ensures Closed() && corrected == Actual(usage)
    {
      if usage.Reported? {
        CommitRate(usage.total);
      } else {
        ReleaseRate();
      }
    }

    // ----- the two kinds of attempt -----

    /** An attempt that wrote nothing. */
    ghost predicate LeftOpen(o: Outcome)
      reads `heads, `rows, `corrected, `rate, `held, `heldTpm, `heldMinute, `heldTokens, rate, store, limiter
    {
      Open() && (Decide(o).committed ==> Decide(o).gatewayTimeout)
    }

    /** An attempt that answered: one head, one row, one settlement, and a decision
        that is final and carries the row's status. */
    ghost predicate Final(o: Outcome)
      reads `heads, `rows, `corrected, `rate, `held, `heldTpm, `heldMinute, `heldTokens, rate, store, limiter
    {
      && |heads| == 1 && |rows| == 1
      && Decide(o).committed && Decide(o).usageStatus == rows[0].status
      && (Decide(o).success <==> rows[0].status == StatusOk)
      && Closed()
    }

    method AttemptStream(a: StreamAttempt, ctx: Context) returns (o: Outcome)
      requires Open()
      modifies this`heads, this`rows, this`corrected, rate, store, limiter
      ensures if a.Streamed? then Final(o) else LeftOpen(o)
      ensures a.Streamed? ==> heads == [200] && rows == [Row(Terminal(a.end).0, Terminal(a.end).1, 200)]
                              && corrected == Actual(a.usage)
      ensures a.Streamed? ==> StreamRowTells(a.end, rows[0].status, rows[0].code) && UsageTells(a.usage, corrected)
      ensures !a.Streamed? ==> (Decide(o).committed <==> StreamBudgetExpired(a, ctx))
      ensures o == StreamOutcome(a, ctx)
    {
      if a.Streamed? {
        o := AnswerStream(a.end, a.usage);
        TerminalTells(a.end);
      } else {
        UnansweredStream(a, ctx);
        match a
        case CallFailed(err) =>
          o := OutcomeFromErrCtx(ctx, err);
        case NothingReceived(streamErr, timedOut) =>
          if streamErr.Some? {
            o := OutcomeFromErrCtx(ctx, streamErr.value);
          } else if timedOut {
            o := Plain(UpstreamFailed, false, true, 0, 504, UpstreamTimeoutCode);
          } else {
            o := Plain(UpstreamFailed, false, true, 0, 502, UpstreamErrorCode);
          }
      }
    }

    /** The stream from its first event on. */
    method AnswerStream(end: StreamEnd, usage: Usage) returns (o: Outcome)
      requires Open()
      modifies this`heads, this`rows, this`corrected, rate, store, limiter
      ensures Final(o) && o == CommittedStreamOutcome(end) && corrected == Actual(usage)
      ensures heads == [200] && rows == [Row(Terminal(end).0, Terminal(end).1, 200)]
    {
      LaneAgreesWithLedger(end);
      Settle(usage);
      heads := [200];
      rows := [Row(Terminal(end).0, Terminal(end).1, 200)];
      o := CommittedStreamOutcome(end);
    }

    method AttemptNonStream(a: WholeAttempt, ctx: Context) returns (o: Outcome)
      requires Open()
      modifies this`heads, this`rows, this`corrected, rate, store, limiter
      ensures if a.Answered? then Final(o) else LeftOpen(o)
      ensures a.Answered? ==> rows == [WholeRow(a.write)] && heads == [WholeRow(a.write).httpStatus]
      ensures a.Answered? ==>
        corrected == if a.write.EncodeError? then Some(0) else Actual(a.usage)
      ensures a.WholeFailed? ==> (Decide(o).committed <==> ctx.Expired?)
      ensures o == WholeAttemptOutcome(a, ctx)
    {
      match a
      case WholeFailed(err) =>
        DeadEnd(err, ctx);
        o := OutcomeFromErrCtx(ctx, err);
      case Answered(write, usage) =>
        if write.EncodeError? {
          o := FinishEncodeFailure();
        } else if write.WriteError? {
          o := FinishWriteFailure(usage);
        } else {
          Settle(usage);
          heads := [200];
          rows := [Row(StatusOk, NoCode, 200)];
          o := WholeOutcome(Written);
        }
    }

    method FinishEncodeFailure() returns (o: Outcome)
      requires Open()
      modifies this`heads, this`rows, this`corrected, rate, store, limiter
      ensures Final(o) && heads == [500] && corrected == Some(0)
      ensures rows == [Row(StatusError, ResponseEncode, 500)] && o == WholeOutcome(EncodeError)
    {
      WholeAgreesWithLedger(EncodeError);
      CommitRate(0);
      heads := [500];
      rows := [Row(StatusError, ResponseEncode, 500)];
      o := WholeOutcome(EncodeError);
    }

    method FinishWriteFailure(usage: Usage) returns (o: Outcome)
      requires Open()
      modifies this`heads, this`rows, this`corrected, rate, store, limiter
      ensures Final(o) && heads == [200] && corrected == Actual(usage)
      ensures rows == [Row(StatusCanceled, DownstreamWrite, 200)] && o == WholeOutcome(WriteError)
    {
      WholeAgreesWithLedger(WriteError);
      Settle(usage);
      heads := [200];
      rows := [Row(StatusCanceled, DownstreamWrite, 200)];
      o := WholeOutcome(WriteError);
    }

    // ----- one turn of the candidate loop -----

    ghost predicate TokensFree()
      reads `tokens, pool
    {
      forall t :: t in tokens ==> t <= pool.lastToken && !Held(pool.State(), t)
    }

    ghost predicate PoolOk()
      reads `tokens, pool
    {
      pool.Valid() && TokensFree()
    }

    /** Other requests and reloads run; what this request has freed stays free. */
    method Interleave(ops: seq<PoolOp>, ghost id: string, ghost token: nat)
      requires PoolOk() && OnlyAt(pool.State(), id, token)
      modifies pool
      ensures PoolOk() && OnlyAt(pool.State(), id, token)
      ensures pool.State() == AfterAll(old(pool.State()), ops)
    {
      ghost var s := pool.State();
      pool.Others(ops);
      AnyCallsKeep(s, ops);
      assert Rely(s, pool.State());
      OnlyAtIsStable(s, pool.State(), id, token);
    }

    method Claim(turn: nat, id: string, now: int) returns (token: nat, ok: bool)
      requires PoolOk()
      modifies pool, this`log
      ensures PoolOk()
      ensures log == if ok then old(log) + [Claimed(turn, id, token)] else old(log)
      ensures ok ==> OnlyAt(pool.State(), id, token)
      ensures (pool.State(), token, ok) == ClaimResult(old(pool.State()), id, now)
    {
      ghost var s := pool.State();
      token, ok := pool.ClaimTargetProbe(id, now);
      assert forall t :: t in tokens ==> !Held(pool.State(), t) by {
        forall t | t in tokens ensures !Held(pool.State(), t) {
          assert !Held(s, t);
        }
      }
      if ok {
        ClaimedOnlyThere(s, id, now);
        log := log + [Claimed(turn, id, token)];
      }
    }

    method Release(turn: nat, id: string, token: nat)
      requires PoolOk() && OnlyAt(pool.State(), id, token)
      modifies pool`targets, this`log, this`tokens
      ensures PoolOk() && tokens == old(tokens) + {token}
      ensures log == old(log) + [Released(turn, id, token)]
      ensures pool.State() == AfterRelease(old(pool.State()), id, token)
    {
      ghost var s := pool.State();
      pool.ReleaseTargetProbe(id, token);
      ReleaseKeeps(s, id, token);
      ReleaseFrees(s, id, token);
      StillFree(s, pool.State(), tokens);
      tokens := tokens + {token};
      log := log + [Released(turn, id, token)];
    }

    method Record(turn: nat, id: string, token: nat, penalize: bool, now: int)
      requires PoolOk() && OnlyAt(pool.State(), id, token)
      modifies pool`targets, this`log, this`tokens
      ensures PoolOk() && tokens == old(tokens) + {token}
      ensures log == old(log) + [Recorded(turn, id, token, penalize)]
      ensures pool.State() == if penalize then AfterFailure(old(pool.State()), id, token, plan.threshold, now)
                              else AfterSuccess(old(pool.State()), id, token, now)
    {
      ghost var s := pool.State();
      SettlementFrees(s, id, token, plan.threshold, now);
      if penalize {
        pool.RecordTargetFailure(id, token, plan.threshold, now);
        FailureKeeps(s, id, token, plan.threshold, now);
      } else {
        pool.RecordTargetSuccess(id, token, now);
        SuccessKeeps(s, id, token, now);
      }
      StillFree(s, pool.State(), tokens);
      tokens := tokens + {token};
      log := log + [Recorded(turn, id, token, penalize)];
    }

    /** What the turns so far leave behind: a fate each, and their settled pool calls,
        whose slots are free. */
    ghost predicate Traced(active: seq<Candidate>, done: nat)
      reads `fates, `history, `tokens
    {
      && done <= |active| && done <= |turns| && |fates| == done && |history| == done
      && forall i {:trigger At(i)} :: 0 <= i < done && At(i) ==>
           FateFits(plan, active[i].id, i, turns[i], fates[i], history[i]) && Freed(history[i])
    }

    /** Every slot these calls name is free again, and stays so. */
    ghost predicate Freed(calls: seq<Call>)
      reads `tokens
    {
      forall c :: c in calls ==> c.token in tokens
    }

    /** All turns up to `n` moved on. */
    ghost predicate PassedOn(n: nat)
      reads `fates
    {
      n <= |fates| && forall i :: 0 <= i < n ==> PassesOn(fates[i])
    }

    /** The one head, the one row and the one correction of the attempt that wrote. */
    ghost predicate WrittenAs(t: Turn)
      reads `heads, `rows, `corrected
    {
      && Wrote(plan.streaming, t)
      && rows == [TurnRow(plan.streaming, t)] && heads == [TurnRow(plan.streaming, t).httpStatus]
      && corrected == TurnActual(plan.streaming, t)
    }

    method RunUpstream(t: Turn) returns (o: Outcome)
      requires Open()
      modifies this`heads, this`rows, this`corrected, rate, store, limiter
      ensures o == OutcomeOf(plan.streaming, t)
      ensures if Decide(o).committed then ExitState(ExitOf(), Tried(Decide(o)), t) else Open()
    {
      if plan.streaming {
        o := AttemptStream(t.stream, t.attemptCtx);
      } else {
        o := AttemptNonStream(t.whole, t.attemptCtx);
      }
    }

    /** Where the request stands after a turn of this fate. Where a contract says that it
        equals true, the verifier carries it over as one fact, not piece by piece. */
    ghost predicate TurnState(next: Next, f: Fate, t: Turn, isLast: bool)
      reads `heads, `rows, `out, `corrected, `rate, `held, `heldTpm, `heldMinute, `heldTokens, rate, store, limiter
    {
      match next
      case GoOn => !isLast && PassesOn(f) && Open()
      case Stop => (PassesOn(f) ==> isLast) && !f.Gone? && (f.Tried? ==> !f.decision.committed)
                   && Open() && out == OutcomeLeft(plan, f, t)
      case Leave(exit) => ExitState(exit, f, t)
    }

    ghost predicate ExitState(exit: Exit, f: Fate, t: Turn)
      reads `heads, `rows, `corrected, `rate, `held, `heldTpm, `heldMinute, `heldTokens, rate, store, limiter
    {
      match exit
      case Disconnected => f.Gone? && heads == [] && rows == [] && Closed() && corrected == Some(0)
      case Committed =>
        f.Tried? && f.decision.committed && WrittenAs(t) && f.decision.usageStatus == rows[0].status && Closed()
      case BudgetExpired =>
        f.Tried? && f.decision.committed && f.decision.gatewayTimeout && BudgetTurn(plan.streaming, t) && Open()
      case _ => false
    }

    /** A committed decision without a head is the expired budget. */
    function ExitOf(): Exit
      reads `heads
    {
      if heads == [] then BudgetExpired else Committed
    }

    /** The request's side of an attempt. */
    method Attempt(isLast: bool, t: Turn) returns (decision: LaneDecision, next: Next)
      requires Open()
      modifies this`heads, this`rows, this`out, this`corrected, rate, store, limiter
      ensures decision == Decide(OutcomeOf(plan.streaming, t))
      ensures TurnState(next, Tried(decision), t, isLast) == true
    {
      out := RunUpstream(t);
      decision := Decide(out);
      if decision.committed {
        next := Leave(ExitOf());
      } else if !decision.eligible || isLast {
        next := Stop;
      } else {
        next := GoOn;
      }
    }

    /** The pool's side of an attempt: record it for the target, or hand an unused
        claim back. */
    method SettleProbe(turn: nat, id: string, t: Turn, token: nat, probeClaimed: bool, decision: LaneDecision)
      requires PoolOk() && OnlyAt(pool.State(), id, token) && (!probeClaimed ==> token == 0)
      modifies pool, this`log, this`tokens
      ensures PoolOk() && log == old(log) + SettlingCalls(turn, id, token, probeClaimed, decision)
      ensures old(tokens) <= tokens && (probeClaimed || |log| > |old(log)| ==> token in tokens)
      ensures pool.State() == SettledPool(old(pool.State()), id, plan.threshold, t, token, probeClaimed, decision)
    {
      Interleave(t.during, id, token);
      if decision.committed {
        Record(turn, id, token, decision.penalizeUpstream, t.recordAt);
      } else {
        if decision.penalizeUpstream {
          Record(turn, id, token, true, t.recordAt);
        } else if probeClaimed {
          Release(turn, id, token);
        }
      }
    }

    /** Claims a probe slot if the breaker is in use; `skip` says none was to be had. */
    method TakeProbe(turn: nat, id: string, t: Turn) returns (token: nat, probeClaimed: bool, skip: bool)
      requires PoolOk()
      modifies pool, this`log
      ensures PoolOk() && OnlyAt(pool.State(), id, token) && (!probeClaimed ==> token == 0)
      ensures log == old(log) + if probeClaimed then [Claimed(turn, id, token)] else []
      ensures skip <==> SlotRefused(plan, old(pool.State()), id, t)
      ensures probeClaimed <==> plan.failover && plan.threshold > 0 && !skip
      ensures probeClaimed ==> token == ClaimResult(AfterAll(old(pool.State()), t.before), id, t.claimAt).1
    {
      assert OnlyAt(pool.State(), id, 0);
      Interleave(t.before, id, 0);
      if plan.failover && plan.threshold > 0 {
        token, probeClaimed := Claim(turn, id, t.claimAt);
        if !probeClaimed {
          return 0, false, true;
        }
        return token, true, false;
      }
      return 0, false, false;
    }

    /** A turn that has a credential and perhaps a claim. */
    method AttemptAndSettle(turn: nat, id: string, isLast: bool, t: Turn, token: nat, probeClaimed: bool)
      returns (next: Next, ghost fate: Fate)
      requires Open() && PoolOk() && OnlyAt(pool.State(), id, token) && (!probeClaimed ==> token == 0)
      requires log == if probeClaimed then [Claimed(turn, id, token)] else []
      requires t.credential && t.ctx == Alive
      modifies this`heads, this`rows, this`out, this`corrected, this`log, this`tokens, rate, store, limiter, pool
      ensures PoolOk() && FateFits(plan, id, turn, t, fate, log) && fate.Tried?
      ensures Freed(log) && old(tokens) <= tokens
      ensures TurnState(next, fate, t, isLast) == true
    {
      var decision;
      decision, next := Attempt(isLast, t);
      fate := Tried(decision);
      SettleProbe(turn, id, t, token, probeClaimed, decision);
    }

    /** The part of a turn that may claim a probe. */
    method PursueTarget(turn: nat, id: string, isLast: bool, t: Turn) returns (next: Next, ghost fate: Fate)
      requires log == [] && Open() && PoolOk() && t.ctx == Alive
      modifies this`heads, this`rows, this`out, this`corrected, this`log, this`tokens, rate, store, limiter, pool
      ensures PoolOk() && FateFits(plan, id, turn, t, fate, log)
      ensures Freed(log) && old(tokens) <= tokens
      ensures fate.Busy? <==> SlotRefused(plan, old(pool.State()), id, t)
      ensures TurnState(next, fate, t, isLast) == true
    {
      var token, probeClaimed, skip := TakeProbe(turn, id, t);
      if skip {
        fate := Busy;
        next := GiveUp(isLast, fate, t);
      } else if t.credential {
        next, fate := AttemptAndSettle(turn, id, isLast, t, token, probeClaimed);
      } else {
        ReturnUnused(turn, id, token, probeClaimed);
        fate := Unkeyed;
        next := GiveUp(isLast, fate, t);
      }
    }

    /** There is no credential: a claimed slot goes back. */
    method ReturnUnused(turn: nat, id: string, token: nat, probeClaimed: bool)
      requires PoolOk() && OnlyAt(pool.State(), id, token)
      requires log == if probeClaimed then [Claimed(turn, id, token)] else []
      modifies pool`targets, this`log, this`tokens
      ensures PoolOk() && Settled(turn, id, log) && !EndsRecorded(log)
      ensures Freed(log) && old(tokens) <= tokens
      ensures pool.State() == if probeClaimed then AfterRelease(old(pool.State()), id, token) else old(pool.State())
    {
      if probeClaimed {
        Release(turn, id, token);
      }
    }

    /** This target cannot be tried: on to the next, if there is one. */
    method GiveUp(isLast: bool, ghost fate: Fate, t: Turn) returns (next: Next)
      requires Open() && (fate.Busy? || fate.Unkeyed?)
      modifies this`out
      ensures TurnState(next, fate, t, isLast) == true
    {
      out := NoProvider();
      next := if isLast then Stop else GoOn;
    }

    method TryCandidate(turn: nat, cand: Candidate, isLast: bool, t: Turn) returns (next: Next, ghost fate: Fate)
      requires Open() && PoolOk()
      modifies this`heads, this`rows, this`out, this`corrected, this`log, this`tokens, rate, store, limiter, pool
      ensures PoolOk() && FateFits(plan, cand.id, turn, t, fate, log)
      ensures Freed(log) && old(tokens) <= tokens
      ensures TurnState(next, fate, t, isLast) == true
    {
      log := [];
      if t.ctx != Alive {
        CommitRate(0);
        next, fate := Leave(Disconnected), Gone;
      } else {
        next, fate := PursueTarget(turn, cand.id, isLast, t);
      }
    }

    /** The turn is over: its fate and its calls go into the history. */
    ghost method CloseTurn(turn: nat, active: seq<Candidate>, fate: Fate)
      requires turn < |active| && turn < |turns| && Traced(active, turn)
      requires FateFits(plan, active[turn].id, turn, turns[turn], fate, log) && Freed(log)
      modifies this`history, this`fates
      ensures Traced(active, turn + 1) && fates == old(fates) + [fate]
    {
      history, fates := history + [log], fates + [fate];
    }

    // ----- admission -----

    /** What other requests hold of the quotas changes. */
    method OthersMove(to: Share)
      requires Open()
      modifies this`elsewhere, this`held, store`keyTotal, store`userTotal
      ensures Open() && elsewhere == to && held == Moved(old(held), old(elsewhere), to)
    {
      store.keyTotal := store.keyTotal - elsewhere.key + to.key;
      store.userTotal := store.userTotal - elsewhere.user + to.user;
      elsewhere := to;
      held := BooksNow();
    }

    /** Other requests use the key's token window. */
    method OthersUseWindow()
      requires Open()
      modifies this`heldMinute, this`heldTokens, limiter
      ensures Open() && (heldMinute, heldTokens) == MovedWindow(plan, old(heldMinute), old(heldTokens))
    {
      var w := MovedWindow(plan, limiter.minute, limiter.tokens);
      limiter.minute, limiter.tokens := w.0, w.1;
      heldMinute, heldTokens := limiter.minute, limiter.tokens;
    }

    method NewRate(limit: int)
      requires rate == null && Linked()
      modifies this`rate
      ensures rate != null && fresh(rate) && Linked()
      ensures rate.limit == limit && rate.reserved == 0 && rate.corrections == []
      ensures rate.quotaReserved == 0 && rate.userQuotaReserved == 0
    {
      rate := new Reservations.RateCommit(limiter, store, limit, durable);
    }

    /** Reserves the key's quota and then the user's; `refused` says that one of them
        is exhausted, and then everything is already given back. */
    method ReserveQuotas() returns (refused: bool)
      requires plan.routeFound && Open() && rate == null && BooksNow() == BooksOf(elsewhere)
      modifies this`rate, this`held, this`elsewhere, this`corrected, store, limiter
      ensures rate == null || fresh(rate)
      ensures elsewhere == ShareAtEnd(plan, old(elsewhere))
      ensures held == Reservations.Admit(BooksOf(elsewhere), durable, AdmissionOf(plan))
      ensures refused <==> QuotaRefused(plan)
      ensures if refused then Closed() && corrected == Some(0) else Open()
      ensures plan.tpmLimit > 0 ==> rate != null
    {
      if plan.tpmLimit > 0 {
        NewRate(plan.tpmLimit);
      }
      refused := ReserveBoth();
      AdmitsInTurn(BooksOf(elsewhere), durable, plan);
    }

    method ReserveBoth() returns (refused: bool)
      requires Open() && heldTpm == 0 && held == BooksOf(elsewhere) && (plan.tpmLimit > 0 ==> rate != null)
      modifies this`rate, this`held, this`elsewhere, this`corrected, rate, store, limiter
      ensures rate == old(rate) || fresh(rate)
      ensures plan.tpmLimit > 0 ==> rate != null
      ensures refused <==> QuotaRefused(plan)
      ensures plan.routeFound ==> elsewhere == ShareAtEnd(plan, old(elsewhere))
      ensures held == if plan.key == Some(Refused) then BooksOf(elsewhere)
                      else AfterUser(AfterKey(BooksOf(elsewhere), durable, plan), durable, plan)
      ensures if refused then Closed() && corrected == Some(0) else Open()
    {
      refused := ReserveKeyQuota();
      if !refused {
        AfterKeyMoves(elsewhere, plan.shareBetween, durable, plan);
        OthersMove(plan.shareBetween);
        refused := ReserveUserAfterKey();
      }
    }

    method ReserveUserAfterKey() returns (refused: bool)
      requires Open() && heldTpm == 0 && (plan.tpmLimit > 0 ==> rate != null)
      requires held == AfterKey(BooksOf(elsewhere), durable, plan)
      modifies this`rate, this`held, this`elsewhere, this`corrected, rate, store, limiter
      ensures rate == old(rate) || fresh(rate)
      ensures plan.tpmLimit > 0 ==> rate != null
      ensures refused <==> plan.user == Some(Refused)
      ensures elsewhere == if refused then old(elsewhere) else plan.shareLater
      ensures held == AfterUser(AfterKey(BooksOf(elsewhere), durable, plan), durable, plan)
      ensures if refused then Closed() && corrected == Some(0) else Open()
    {
      refused := ReserveUserQuota();
      if !refused {
        AfterBothMoves(elsewhere, plan.shareLater, durable, plan);
        OthersMove(plan.shareLater);
      }
    }

    method ReserveKeyQuota() returns (refused: bool)
      requires Open() && heldTpm == 0 && Reservations.Fresh(held) && (plan.tpmLimit > 0 ==> rate != null)
      modifies this`rate, this`held, this`corrected, rate, store, limiter
      ensures rate == old(rate) || fresh(rate)
      ensures plan.tpmLimit > 0 ==> rate != null
      ensures refused <==> plan.key == Some(Refused)
      ensures held == AfterKey(old(held), durable, plan)
      ensures if refused then Closed() && corrected == Some(0) else Open()
    {
      refused := plan.key == Some(Refused);
      if refused {
        CommitRate(0);
      } else if plan.key.Some? && plan.key.value.Granted? {
        store.keyTotal := store.keyTotal + plan.key.value.amount;
        if rate == null {
          NewRate(0);
        }
        rate.SetKeyQuotaReserved(plan.key.value.amount, plan.keyLeaseOk);
        held := BooksNow();
      }
    }

    method ReserveUserQuota() returns (refused: bool)
      requires Open() && heldTpm == 0 && (plan.tpmLimit > 0 ==> rate != null)
      modifies this`rate, this`held, this`corrected, rate, store, limiter
      ensures rate == old(rate) || fresh(rate)
      ensures plan.tpmLimit > 0 ==> rate != null
      ensures refused <==> plan.user == Some(Refused)
      ensures held == AfterUser(old(held), durable, plan)
      ensures if refused then Closed() && corrected == Some(0) else Open()
    {
      refused := plan.user == Some(Refused);
      if refused {
        CommitRate(0);
      } else if plan.user.Some? && plan.user.value.Granted? {
        store.userTotal := store.userTotal + plan.user.value.amount;
        if rate == null {
          NewRate(0);
        }
        rate.SetUserQuotaReserved(plan.user.value.amount, plan.userLeaseOk);
        held := BooksNow();
      }
    }

    /** What the window counts for this request's minute. */
    function InWindow(minute: int, tokens: int): int {
      if minute == plan.minute then tokens else 0
    }

    /** The estimate fits into the window on top of `start`. */
    predicate WindowGranted(start: int) {
      WindowAsked(plan) && plan.est <= plan.tpmLimit && start + plan.est <= plan.tpmLimit
    }

    /** The window after admission and what other requests did to it since: untouched if
        it was not asked, filled by an estimate that could never fit. */
    function AdmittedWindow(minute: int, tokens: int): (int, int) {
      var start := InWindow(minute, tokens);
      if WindowGranted(start) then MovedWindow(plan, plan.minute, start + plan.est)
      else if WindowAsked(plan) then (plan.minute, if plan.est > plan.tpmLimit then plan.tpmLimit else start)
      else (minute, tokens)
    }

    /** The window at the end: what was granted is corrected once. */
    function FinalWindow(minute: int, tokens: int, correction: Option<int>): (int, int) {
      if WindowGranted(InWindow(minute, tokens)) then CorrectedWindow(plan, AdmittedWindow(minute, tokens), correction)
      else AdmittedWindow(minute, tokens)
    }

    /** The token window is reserved last among the checks that share the estimate. */
    method ReserveWindow() returns (ok: bool)
      requires Open() && heldTpm == 0 && (plan.tpmLimit > 0 ==> rate != null)
      modifies this`heldTpm, this`heldMinute, this`heldTokens, this`corrected, rate, store, limiter
      ensures plan.tpmLimit <= 0 ==> ok && heldTpm == 0 && heldMinute == old(heldMinute) && heldTokens == old(heldTokens)
      ensures !ok ==> heldMinute == plan.minute
                      && heldTokens == if plan.est > plan.tpmLimit then plan.tpmLimit
                                       else InWindow(old(limiter.minute), old(limiter.tokens))
      ensures if ok then Open() else Closed() && corrected == None && heldTpm == 0
      ensures ok <==> plan.tpmLimit <= 0
                      || (plan.est <= plan.tpmLimit && InWindow(old(limiter.minute), old(limiter.tokens)) + plan.est <= plan.tpmLimit)
      ensures ok && plan.tpmLimit > 0 ==> heldTpm == plan.est && heldMinute == plan.minute
      ensures ok && plan.tpmLimit > 0 ==>
        heldTokens == InWindow(old(limiter.minute), old(limiter.tokens)) + plan.est
    {
      ok := true;
      if plan.tpmLimit > 0 {
        ok := limiter.Reserve(plan.minute, plan.tpmLimit, plan.est);
        heldMinute, heldTokens := limiter.minute, limiter.tokens;
        if ok {
          rate.SetTPMReserved(plan.est);
          heldTpm := plan.est;
        } else {
          ReleaseRate();
        }
      }
    }

    // ----- the candidate set -----

    method FilterAvailable(cands: seq<Candidate>) returns (avail: seq<Candidate>)
      ensures avail == KeepAvailable(pool.State(), plan.filterAt, cands)
    {
      avail := [];
      var i := 0;
      while i < |cands|
        invariant 0 <= i <= |cands|
        invariant avail == KeepAvailable(pool.State(), plan.filterAt, cands[..i])
      {
        assert cands[..i + 1][..i] == cands[..i];
        var ok := pool.TargetAvailable(cands[i].id, plan.filterAt);
        if ok {
          avail := avail + [cands[i]];
        }
        i := i + 1;
      }
      assert cands[..i] == cands;
    }

    method FilterServiceable(cands: seq<Candidate>) returns (r: seq<Candidate>)
      ensures r == KeepServiceable(plan, cands)
    {
      if !plan.structuredOutput {
        AllServiceable(plan, cands);
        return cands;
      }
      r := [];
      var i := 0;
      while i < |cands|
        invariant 0 <= i <= |cands|
        invariant r == KeepServiceable(plan, cands[..i])
      {
        assert cands[..i + 1][..i] == cands[..i];
        if cands[i].hasProvider && !cands[i].anthropic {
          r := r + [cands[i]];
        }
        i := i + 1;
      }
      assert cands[..i] == cands;
    }

    /** The chain the loop walks; `none` says that structured output ruled out every
        candidate. */
    method SelectActive(cands: seq<Candidate>) returns (active: seq<Candidate>, none: bool)
      ensures active == Active(plan, pool.State(), cands)
      ensures none <==> plan.structuredOutput && KeepServiceable(plan, Reachable(plan, pool.State(), cands)) == []
    {
      var limit := Limit(plan, cands);
      active := cands;
      if plan.failover {
        var avail := FilterAvailable(cands);
        if avail != [] {
          active := avail;
        }
      }
      active := FilterServiceable(active);
      none := plan.structuredOutput && active == [];
      if |active| > limit {
        active := active[..limit];
      }
    }

    // ----- the whole request -----

    /** A refused request: what it held went through one finalization, its estimate out
        of the window again. */
    ghost predicate GaveBack()
      reads `corrected, `rate, `held, `heldTpm, `heldMinute, `heldTokens, rate, store, limiter
    {
      Closed() && (corrected == Some(0) || (corrected == None && heldTpm == 0))
    }

    /** What admission made of the token window it found. */
    ghost predicate WindowHeld(minute: int, tokens: int)
      reads `heldTpm, `heldMinute, `heldTokens
    {
      && (heldMinute, heldTokens) == AdmittedWindow(minute, tokens)
      && heldTpm == if WindowGranted(InWindow(minute, tokens)) then plan.est else 0
    }

    /** Refused exactly if there is a status to refuse with, and then answered with it. */
    ghost predicate RefusedAs(rejected: bool, status: int)
      reads `heads
    {
      (rejected <==> status != 0) && (rejected ==> heads == [status])
    }

    /** Quotas, then the token window, then the two checks that need no reservation. */
    method AdmitRequest() returns (rejected: bool)
      requires plan.routeFound && Open() && rate == null && heldTpm == 0 && BooksNow() == BooksOf(elsewhere)
      modifies this`rate, this`elsewhere, this`held, this`heldTpm, this`heldMinute, this`heldTokens, this`corrected, this`heads
      modifies store, limiter
      ensures rate == null || fresh(rate)
      ensures elsewhere == ShareAtEnd(plan, old(elsewhere))
      ensures held == Reservations.Admit(BooksOf(elsewhere), durable, AdmissionOf(plan))
      ensures RefusedAs(rejected, Refusal(plan, InWindow(old(limiter.minute), old(limiter.tokens))))
      ensures rejected ==> GaveBack()
      ensures WindowHeld(old(limiter.minute), old(limiter.tokens))
      ensures !rejected ==> Open() && (plan.tpmLimit > 0 ==> rate != null)
    {
      rejected := ReserveQuotas();
      if rejected {
        heads := [429];
      } else {
        rejected := CheckReserved();
      }
    }

    method CheckReserved() returns (rejected: bool)
      requires plan.routeFound && !QuotaRefused(plan) && Open() && heldTpm == 0 && (plan.tpmLimit > 0 ==> rate != null)
      modifies this`heldTpm, this`heldMinute, this`heldTokens, this`corrected, this`heads, rate, store, limiter
      ensures RefusedAs(rejected, Refusal(plan, InWindow(old(limiter.minute), old(limiter.tokens))))
      ensures rejected ==> GaveBack()
      ensures WindowHeld(old(limiter.minute), old(limiter.tokens))
      ensures !rejected ==> Open()
    {
      var ok := ReserveWindow();
      if ok && plan.tpmLimit > 0 {
        OthersUseWindow();
      }
      rejected := !ok || !plan.modelAllowed || plan.balanceStatus != 0;
      if !ok {
        heads := [429];
      } else if rejected {
        CommitRate(0);
        heads := [if plan.modelAllowed then plan.balanceStatus else 403];
      }
    }

    method TakeTurn(i: nat, active: seq<Candidate>) returns (next: Next)
      requires i < |active| <= |turns| && Open() && PoolOk() && Traced(active, i)
      modifies this`heads, this`rows, this`out, this`corrected, this`log, this`history, this`fates, this`tokens
      modifies rate, store, limiter, pool
      ensures PoolOk() && Traced(active, i + 1) && old(fates) == fates[..i]
      ensures TurnState(next, fates[i], turns[i], i == |active| - 1) == true
    {
      ghost var fate;
      next, fate := TryCandidate(i, active[i], i == |active| - 1, turns[i]);
      CloseTurn(i, active, fate);
    }

    /** The state at the end of the loop: the last turn decides, all before it moved on. */
    ghost predicate LoopState(next: Next, active: seq<Candidate>, done: nat)
      reads `heads, `rows, `out, `fates, `corrected, `rate, `held, `heldTpm, `heldMinute, `heldTokens, rate, store, limiter
    {
      if done == 0 then next == (if active == [] then Stop else GoOn) && Open()
      else done <= |fates| && done <= |turns| && PassedOn(done - 1)
           && TurnState(next, fates[done - 1], turns[done - 1], done == |active|)
    }

    method WalkChain(active: seq<Candidate>) returns (next: Next, ghost done: nat)
      requires Open() && PoolOk() && history == [] && fates == [] && |active| <= |turns|
      modifies this`heads, this`rows, this`out, this`corrected, this`log, this`history, this`fates, this`tokens
      modifies rate, store, limiter, pool
      ensures PoolOk() && Traced(active, done) && LoopState(next, active, done) && !next.GoOn?
      ensures done == 0 ==> out == old(out)
    {
      next := if active == [] then Stop else GoOn;
      done := 0;
      var i := 0;
      while i < |active| && next.GoOn?
        invariant 0 <= i <= |active| && done == i
        invariant PoolOk() && Traced(active, done) && LoopState(next, active, done)
        invariant done == 0 ==> out == old(out)
      {
        next := TakeTurn(i, active);
        i := i + 1;
        done := i;
      }
    }

    /** The last attempt wrote nothing: answer for the whole chain. */
    method FinishUncommitted()
      requires Open()
      modifies this`heads, this`rows, this`out, this`corrected, rate, store, limiter
      ensures Closed() && corrected == Some(0)
      ensures out == WithRequestContext(old(out), plan.finalCtx) && FailureAnswered()
    {
      out := WithRequestContext(out, plan.finalCtx);
      CommitRate(0);
      AnswerFailure();
    }

    /** The row of the whole chain's failure, and its response unless nobody is left
        to read it. */
    ghost predicate FailureAnswered()
      reads `heads, `rows, `out
    {
      && rows == [FailureRow(out)]
      && heads == if Decide(out).downstreamClient then [] else [rows[0].httpStatus]
    }

    method AnswerFailure()
      modifies this`heads, this`rows
      ensures FailureAnswered()
    {
      var row := FailureRow(out);
      rows := [row];
      heads := if Decide(out).downstreamClient then [] else [row.httpStatus];
    }

    /** What a request that failed leaves for its answer. */
    ghost function LastOutcome(done: nat): Outcome
      requires done <= |fates| && done <= |turns|
      reads `fates
    {
      if done == 0 then NothingTried else OutcomeLeft(plan, fates[done - 1], turns[done - 1])
    }

    /** The loop went as far as it could: to the end of the chain, or to a failure that
        must not be retried. */
    ghost predicate GivenUp(active: seq<Candidate>, done: nat)
      reads `fates
    {
      && done <= |fates|
      && (PassedOn(done) ==> done == |active|)
      && (done > 0 ==> !fates[done - 1].Gone? && (fates[done - 1].Tried? ==> !fates[done - 1].decision.committed))
    }

    ghost predicate HandleState(exit: Exit, active: seq<Candidate>, done: nat)
      reads `heads, `rows, `out, `fates, `corrected, `rate, `held, `heldTpm, `heldMinute, `heldTokens, rate, store, limiter
    {
      && done <= |fates| && done <= |turns| && (done > 0 ==> PassedOn(done - 1))
      && match exit
         case Rejected =>
           |heads| == 1 && rows == [] && done == 0 && GaveBack()
         case Failed =>
           && Closed() && corrected == Some(0) && FailureAnswered()
           && out == WithRequestContext(LastOutcome(done), plan.finalCtx) && GivenUp(active, done)
         case _ => done > 0 && ExitState(exit, fates[done - 1], turns[done - 1])
    }

    /** What admission granted; a request whose route is unknown never gets there. */
    ghost function GrantedNow(): Reservations.Admission {
      if plan.routeFound then AdmissionOf(plan) else Reservations.Admission(None, None, false, false)
    }

    /** One request from its reservations to its last byte. */
    method Serve(cands: seq<Candidate>) returns (exit: Exit, ghost active: seq<Candidate>, ghost done: nat)
      requires Open() && rate == null && heldTpm == 0 && BooksNow() == BooksOf(elsewhere)
      requires PoolOk() && history == [] && fates == [] && tokens == {}
      requires out == NothingTried && |cands| <= |turns|
      modifies this, store, limiter, pool
      ensures HandleState(exit, active, done) == true && PoolOk() == true && Traced(active, done) == true
      ensures active == Active(plan, old(pool.State()), cands)
      ensures elsewhere == ShareAtEnd(plan, old(elsewhere))
      ensures held == Reservations.Admit(BooksOf(elsewhere), durable, GrantedNow())
      ensures WindowHeld(old(limiter.minute), old(limiter.tokens)) == true
      ensures exit != Rejected && plan.tpmLimit > 0 ==>
        rate != null && WindowGranted(InWindow(old(limiter.minute), old(limiter.tokens)))
      ensures RefusedAs(exit == Rejected, RefusedWith(old(pool.State()), cands, InWindow(old(limiter.minute), old(limiter.tokens)))) == true
    {
      active, done := Active(plan, pool.State(), cands), 0;
      exit := Rejected;
      var rejected := AdmitOrReject();
      if !rejected {
        exit, done := Proceed(cands);
      }
    }

    /** The status of a refused request: at admission, or because no candidate can give
        the structured output it asks for; 0 if it is not refused. */
    function RefusedWith(s: PoolState, cands: seq<Candidate>, start: int): int {
      if Refusal(plan, start) != 0 then Refusal(plan, start)
      else if plan.structuredOutput && Kept(plan, s, cands) == [] then 400
      else 0
    }

    /** An unknown route is refused before anything is reserved. */
    method AdmitOrReject() returns (rejected: bool)
      requires Open() && rate == null && heldTpm == 0 && BooksNow() == BooksOf(elsewhere)
      modifies this`rate, this`elsewhere, this`held, this`heldTpm, this`heldMinute, this`heldTokens, this`corrected, this`heads
      modifies store, limiter
      ensures rate == null || fresh(rate)
      ensures elsewhere == ShareAtEnd(plan, old(elsewhere))
      ensures held == Reservations.Admit(BooksOf(elsewhere), durable, GrantedNow())
      ensures RefusedAs(rejected, Refusal(plan, InWindow(old(limiter.minute), old(limiter.tokens))))
      ensures rejected ==> GaveBack()
      ensures WindowHeld(old(limiter.minute), old(limiter.tokens))
      ensures !rejected ==> Open() && (plan.tpmLimit > 0 ==> rate != null)
    {
      if plan.routeFound {
        rejected := AdmitRequest();
      } else {
        heads, rejected := [404], true;
      }
    }

    method Proceed(cands: seq<Candidate>) returns (exit: Exit, ghost done: nat)
      requires Open() && PoolOk() && history == [] && fates == [] && out == NothingTried && |cands| <= |turns|
      modifies this`heads, this`rows, this`out, this`corrected, this`log, this`history, this`fates, this`tokens
      modifies rate, store, limiter, pool
      ensures HandleState(exit, Active(plan, old(pool.State()), cands), done)
      ensures PoolOk() && Traced(Active(plan, old(pool.State()), cands), done)
      ensures exit == Rejected <==> plan.structuredOutput && Kept(plan, old(pool.State()), cands) == []
      ensures exit == Rejected ==> heads == [400]
    {
      var active, none := SelectActive(cands);
      ActiveFits(plan, pool.State(), cands);
      if none {
        RejectUnserviceable();
        exit, done := Rejected, 0;
      } else {
        exit, done := RunChain(active);
      }
    }

    method RunChain(active: seq<Candidate>) returns (exit: Exit, ghost done: nat)
      requires Open() && PoolOk() && history == [] && fates == [] && out == NothingTried && |active| <= |turns|
      modifies this`heads, this`rows, this`out, this`corrected, this`log, this`history, this`fates, this`tokens
      modifies rate, store, limiter, pool
      ensures HandleState(exit, active, done) == true && exit != Rejected
      ensures PoolOk() == true && Traced(active, done) == true
    {
      var next;
      next, done := WalkChain(active);
      if next.Leave? {
        LeftThrough(next.exit, active, done);
        exit := next.exit;
      } else {
        AnswerForChain(active, done);
        exit := Failed;
      }
    }

    method AnswerForChain(active: seq<Candidate>, ghost done: nat)
      requires LoopState(Stop, active, done) && done <= |fates| && done <= |turns| && (done == 0 ==> out == NothingTried)
      modifies this`heads, this`rows, this`out, this`corrected, rate, store, limiter
      ensures HandleState(Failed, active, done)
    {
      StoppedThere(active, done);
      FinishUncommitted();
    }

    lemma LeftThrough(exit: Exit, active: seq<Candidate>, done: nat)
      requires LoopState(Leave(exit), active, done)
      ensures HandleState(exit, active, done) && exit != Rejected
    {
    }

    lemma StoppedThere(active: seq<Candidate>, done: nat)
      requires LoopState(Stop, active, done) && done <= |fates| && done <= |turns| && (done == 0 ==> out == NothingTried)
      ensures Open() && out == LastOutcome(done) && GivenUp(active, done) && (done > 0 ==> PassedOn(done - 1))
    {
    }

    /** The budget ran out in the last attempt before it had written anything. */
    ghost predicate BudgetRanOut()
      reads `fates
    {
      && fates != [] && |fates| <= |turns| && fates[|fates| - 1].Tried?
      && BudgetTurn(plan.streaming, turns[|fates| - 1])
    }

    /** Neither level is below what the other requests hold by now nor above it by more
        than this one added; once the store calls succeed the key's level is exactly
        that, and the user's is exactly when its lease was not lost. */
    ghost predicate QuotaReturned()
      reads `elsewhere, store
    {
      && Reservations.Between(elsewhere.key, store.keyTotal, elsewhere.key + GrantedNow().Key())
      && Reservations.Between(elsewhere.user, store.userTotal, elsewhere.user + GrantedNow().User())
      && (Reservations.Succeeds(calls) ==>
            store.keyTotal == elsewhere.key
            && (store.userTotal == elsewhere.user <==> !Reservations.UserLeaseLost(durable, GrantedNow())))
    }

    /** Everything admission reserved is still reserved. */
    ghost predicate QuotaStranded()
      reads `elsewhere, store
    {
      store.keyTotal == elsewhere.key + GrantedNow().Key() && store.userTotal == elsewhere.user + GrantedNow().User()
    }

    /** Every slot the request claimed is free at the end, and no call by anybody puts
        its token back. */
    ghost predicate SlotsStayFree()
      reads `history, pool
    {
      forall ops, i, c :: 0 <= i < |history| && c in history[i] ==> !Held(AfterAll(pool.State(), ops), c.token)
    }

    /** The last turn decides the way out, every turn before it called for another one, and
        a failed chain has either run out of candidates or met a failure not to be retried. */
    ghost predicate WayOutTells(exit: Exit, active: seq<Candidate>)
      reads `fates
    {
      var n := |fates|;
      && (forall i :: 0 <= i < n - 1 ==>
            !fates[i].Gone? && (fates[i].Tried? ==> !fates[i].decision.committed && fates[i].decision.eligible))
      && (exit == Rejected ==> n == 0)
      && (exit == Disconnected <==> n > 0 && fates[n - 1].Gone?)
      && (exit == Committed || exit == BudgetExpired <==> n > 0 && fates[n - 1].Tried? && fates[n - 1].decision.committed)
      && (exit == Failed ==>
            n == |active| || (n > 0 && fates[n - 1].Tried? && !fates[n - 1].decision.eligible))
    }

    lemma WayOutTold(exit: Exit, active: seq<Candidate>, done: nat)
      requires HandleState(exit, active, done) && |fates| == done
      ensures WayOutTells(exit, active) == true
    {
      match exit
      case Rejected =>
        WayOutOf(exit, active);
      case Failed =>
        FailedState(active, done);
        WayOutOf(exit, active);
      case _ =>
        EarlierPassed(exit, active, done);
        LeftState(exit, active, done);
        LastTurnTells(exit, fates[done - 1], turns[done - 1]);
        WayOutOf(exit, active);
    }

    lemma WayOutOf(exit: Exit, active: seq<Candidate>)
      requires fates != [] ==> PassedOn(|fates| - 1) && exit != Rejected
      requires exit == Failed ==> GivenUp(active, |fates|)
      requires exit != Failed && exit != Rejected ==>
        && fates != []
        && (exit == Disconnected <==> fates[|fates| - 1].Gone?)
        && (exit == Committed || exit == BudgetExpired <==> fates[|fates| - 1].Tried? && fates[|fates| - 1].decision.committed)
      ensures WayOutTells(exit, active) == true
    {
      if exit == Failed {
        GivenUpTells(active);
      }
      if fates != [] {
        EarlierTurnsTell(|fates| - 1);
      }
    }

    lemma EarlierPassed(exit: Exit, active: seq<Candidate>, done: nat)
      requires HandleState(exit, active, done) && done > 0
      ensures PassedOn(done - 1) && exit != Rejected
    {
    }

    lemma FailedState(active: seq<Candidate>, done: nat)
      requires HandleState(Failed, active, done)
      ensures GivenUp(active, done) && (done > 0 ==> PassedOn(done - 1))
      ensures FailureAnswered() && out == WithRequestContext(LastOutcome(done), plan.finalCtx)
      ensures done > 0 ==> !fates[done - 1].Gone? && (fates[done - 1].Tried? ==> !fates[done - 1].decision.committed)
    {
    }

    lemma LeftState(exit: Exit, active: seq<Candidate>, done: nat)
      requires HandleState(exit, active, done) && exit != Failed && exit != Rejected
      ensures done > 0 && ExitState(exit, fates[done - 1], turns[done - 1])
    {
    }

    lemma EarlierTurnsTell(n: nat)
      requires PassedOn(n)
      ensures forall i :: 0 <= i < n ==>
        !fates[i].Gone? && (fates[i].Tried? ==> !fates[i].decision.committed && fates[i].decision.eligible)
    {
    }

    lemma GivenUpTells(active: seq<Candidate>)
      requires GivenUp(active, |fates|) && (fates != [] ==> PassedOn(|fates| - 1))
      ensures |fates| == |active| || (fates != [] && fates[|fates| - 1].Tried? && !fates[|fates| - 1].decision.eligible)
    {
      if fates != [] && PassesOn(fates[|fates| - 1]) {
        assert PassedOn(|fates|);
      }
    }

    lemma LastTurnTells(exit: Exit, f: Fate, t: Turn)
      requires ExitState(exit, f, t)
      ensures exit == Disconnected <==> f.Gone?
      ensures exit == Committed || exit == BudgetExpired <==> f.Tried? && f.decision.committed
    {
    }

    /** Each decision is the one its attempt calls for. */
    ghost predicate DecisionsTell()
      reads `fates
    {
      |fates| <= |turns|
      && forall i {:trigger At(i)} :: 0 <= i < |fates| && At(i) && fates[i].Tried? ==>
           DecisionTells(plan.streaming, turns[i], fates[i].decision)
    }

    ghost predicate LastAnswerTells()
      reads `fates, `rows, `corrected
    {
      && 0 < |fates| <= |turns| && |rows| == 1 && Wrote(plan.streaming, turns[|fates| - 1])
      && AnswerTells(plan.streaming, turns[|fates| - 1], rows[0], corrected)
    }

    /** What is left to tell once the chain has failed. */
    ghost function LastSetback(): Setback
      requires |fates| <= |turns|
      reads `fates
    {
      if fates == [] then NothingToTell else SetbackLeft(plan.streaming, fates[|fates| - 1], turns[|fates| - 1])
    }

    /** The one row of a failed chain, and a head unless the client is gone; a client
        seen to be gone by the last attempt is taken to stay away. */
    ghost predicate LastFailureTells()
      reads `fates, `rows, `heads
    {
      && |fates| <= |turns| && |rows| == 1
      && (!LastAbandoned() || plan.finalCtx.Canceled? ==>
            FailureTells(plan.finalCtx, LastSetback(), rows[0])
            && heads == if plan.finalCtx.Canceled? then [] else [rows[0].httpStatus])
    }

    ghost predicate LastAbandoned()
      reads `fates
    {
      && 0 < |fates| <= |turns| && fates[|fates| - 1].Tried?
      && AbandonedAt(plan.streaming, turns[|fates| - 1])
    }

    /** The contract of one whole request. */
    method Handle(cands: seq<Candidate>) returns (exit: Exit, ghost active: seq<Candidate>)
      requires Open() && rate == null && heldTpm == 0 && BooksNow() == BooksOf(elsewhere)
      requires PoolOk() && history == [] && fates == [] && tokens == {}
      requires out == NothingTried && |cands| <= |turns|
      modifies this, store, limiter, pool
      ensures |heads| <= 1 && |rows| <= 1 && |Corrections()| <= 1
      ensures active == Active(plan, old(pool.State()), cands) && |fates| <= |active| <= Limit(plan, cands)
      ensures PoolOk() && Traced(active, |fates|) && HandleState(exit, active, |fates|)
      ensures SlotsStayFree() && DecisionsTell() && WayOutTells(exit, active)
      ensures exit == Committed ==> LastAnswerTells()
      ensures exit == Failed ==> LastFailureTells()
      ensures RefusedAs(exit == Rejected, RefusedWith(old(pool.State()), cands, InWindow(old(limiter.minute), old(limiter.tokens))))
      ensures exit == BudgetExpired <==> BudgetRanOut()
      ensures elsewhere == ShareAtEnd(plan, old(elsewhere))
      ensures exit != BudgetExpired ==> QuotaReturned()
      ensures exit == BudgetExpired ==> QuotaStranded() && heads == [] && rows == [] && corrected == None
      ensures (limiter.minute, limiter.tokens) == FinalWindow(old(limiter.minute), old(limiter.tokens), corrected)
    {
      ghost var minute, tokens := limiter.minute, limiter.tokens;
      ghost var done;
      exit, active, done := Serve(cands);
      QuotaSettled(exit, active, done);
      WrittenOnce(exit, active, done);
      ExpiredExactly(exit, active, done);
      SlotsFreed(active, done);
      DecisionsTold(active, done);
      WayOutTold(exit, active, done);
      if exit == Committed {
        AnswerTold(active, done);
      } else if exit == Failed {
        FailureTold(active, done);
      }
      WindowOf(exit, active, done, minute, tokens);
    }

    lemma DecisionsTold(active: seq<Candidate>, done: nat)
      requires Traced(active, done)
      ensures DecisionsTell()
    {
      forall i {:trigger At(i)} | 0 <= i < |fates| && At(i) && fates[i].Tried?
        ensures DecisionTells(plan.streaming, turns[i], fates[i].decision)
      {
        TriedTells(plan.streaming, turns[i]);
      }
    }

    lemma AnswerTold(active: seq<Candidate>, done: nat)
      requires HandleState(Committed, active, done) && Traced(active, done)
      ensures LastAnswerTells()
    {
      TurnAnswerTells(plan.streaming, turns[done - 1]);
    }

    lemma FailureTold(active: seq<Candidate>, done: nat)
      requires HandleState(Failed, active, done) && Traced(active, done)
      ensures LastFailureTells()
    {
      FailedState(active, done);
      if done == 0 {
        MetFailureTells(NothingToTell, Alive, 0, plan.finalCtx);
      } else if !LastAbandoned() || plan.finalCtx.Canceled? {
        LastTurnFailureTold(active, done);
      }
    }

    lemma LastTurnFailureTold(active: seq<Candidate>, done: nat)
      requires Traced(active, done) && done > 0 && (fates[done - 1].Tried? ==> !fates[done - 1].decision.committed)
      requires !LastAbandoned() || plan.finalCtx.Canceled?
      ensures var o := WithRequestContext(LastOutcome(done), plan.finalCtx);
        && FailureTells(plan.finalCtx, LastSetback(), FailureRow(o))
        && (Decide(o).downstreamClient <==> plan.finalCtx.Canceled?)
    {
      var f, t := fates[done - 1], turns[done - 1];
      if f.Tried? {
        LastDecision(active, done);
        TriedTells(plan.streaming, t);
      }
      ChainFailureTells(plan, f, t, plan.finalCtx);
    }

    lemma SlotsFreed(active: seq<Candidate>, done: nat)
      requires PoolOk() && Traced(active, done)
      ensures SlotsStayFree()
    {
      forall ops, i, c | 0 <= i < |history| && c in history[i] ensures !Held(AfterAll(pool.State(), ops), c.token) {
        assert At(i) && Freed(history[i]);
        FreedStaysFree(pool.State(), ops, c.token);
      }
    }

    lemma WrittenOnce(exit: Exit, active: seq<Candidate>, done: nat)
      requires HandleState(exit, active, done)
      ensures |heads| <= 1 && |rows| <= 1 && |Corrections()| <= 1
      ensures exit == BudgetExpired ==> heads == [] && rows == []
    {
    }

    lemma ExpiredExactly(exit: Exit, active: seq<Candidate>, done: nat)
      requires HandleState(exit, active, done) && Traced(active, done)
      ensures exit == BudgetExpired <==> BudgetRanOut()
    {
      if exit == BudgetExpired {
        ExpiredRanOut(active, done);
      } else if BudgetRanOut() {
        RanOutIsCommitted(active, done);
        OnlyThatExit(exit, active, done);
      }
    }

    lemma ExpiredRanOut(active: seq<Candidate>, done: nat)
      requires HandleState(BudgetExpired, active, done) && |fates| == done
      ensures BudgetRanOut()
    {
    }

    lemma RanOutIsCommitted(active: seq<Candidate>, done: nat)
      requires Traced(active, done) && BudgetRanOut()
      ensures fates[done - 1].decision.committed
    {
      LastDecision(active, done);
      BudgetTurnIsCommitted(plan.streaming, turns[done - 1]);
    }

    lemma LastDecision(active: seq<Candidate>, done: nat)
      requires Traced(active, done) && done > 0 && fates[done - 1].Tried?
      ensures fates[done - 1].decision == Decide(OutcomeOf(plan.streaming, turns[done - 1]))
    {
      assert At(done - 1);
    }

    /** A committed decision whose attempt wrote nothing rules out every other exit. */
    lemma OnlyThatExit(exit: Exit, active: seq<Candidate>, done: nat)
      requires HandleState(exit, active, done) && |fates| == done && BudgetRanOut() && fates[done - 1].decision.committed
      ensures exit == BudgetExpired
    {
    }

    lemma WindowOf(exit: Exit, active: seq<Candidate>, done: nat, minute: int, tokens: int)
      requires HandleState(exit, active, done) && WindowHeld(minute, tokens)
      requires exit != Rejected && plan.tpmLimit > 0 ==> rate != null && WindowGranted(InWindow(minute, tokens))
      ensures (limiter.minute, limiter.tokens) == FinalWindow(minute, tokens, corrected)
    {
    }

    /** From the finalizer's point of view to the store's totals. */
    lemma QuotaSettled(exit: Exit, active: seq<Candidate>, done: nat)
      requires HandleState(exit, active, done)
      requires held == Reservations.Admit(BooksOf(elsewhere), durable, GrantedNow())
      ensures if exit == BudgetExpired then QuotaStranded() else QuotaReturned()
    {
      var a, base := GrantedNow(), BooksOf(elsewhere);
      Reservations.AdmittedAmounts(base, durable, a);
      if exit != BudgetExpired && rate != null {
        Reservations.NeverReleasesMore(base, durable, a, [calls]);
        if Reservations.Succeeds(calls) {
          assert calls in [calls];
          Reservations.ReturnsExactlyUnlessLeaseLost(base, durable, a, [calls]);
        }
        Reservations.ReleaseOnce(held, durable, calls);
      }
    }

    /** No candidate can serve the request's structured output. */
    method RejectUnserviceable()
      requires Open()
      modifies this`heads, this`corrected, rate, store, limiter
      ensures heads == [400] && rows == [] && GaveBack() && corrected == Some(0)
    {
      CommitRate(0);
      heads := [400];
    }
  }
}
