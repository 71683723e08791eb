/** Durable leases over time: the finalizations of one request and the maintenance
    sweeps that close its lease once it has expired, in any order. */
module Leases {
  import opened Options
  import opened Reservations

  /** Milliseconds a lease lasts, and the longest budget a request context gets. */
  const LEASE_TTL := 1_800_000
  const MAX_BUDGET := 1_800_000

  /** A sweep that reaches the store, or one finalization. */
  datatype Step =
    | Sweep(now: int)
    | Finalize(now: int, calls: Calls)

  /** The request's open leases run out together at `until`; a sweep after that returns
      them without telling the request. */
  function After(b: Books, until: int, s: Step): Books {
    match s
    case Sweep(now) => if until < now then ReleaseLeases(b) else b
    case Finalize(_, calls) => ReleaseQuota(b, true, calls)
  }

  function Run(b: Books, until: int, steps: seq<Step>): Books {
    if steps == [] then b else After(Run(b, until, steps[..|steps| - 1]), until, steps[|steps| - 1])
  }

  predicate Owned(s: Step) {
    s.Finalize? && s.calls.owned
  }

  datatype Level = OfKey | OfUser

  /** The finalization gets through, and so would the level's own release. */
  predicate Returns(s: Step, level: Level) {
    Owned(s) && if level.OfKey? then s.calls.key else s.calls.user
  }

  /** Step `i` sweeps the lease while no finalization has got through yet. */
  predicate SweptAt(until: int, steps: seq<Step>, i: int) {
    0 <= i < |steps| && steps[i].Sweep? && until < steps[i].now && forall k :: 0 <= k < i ==> !Owned(steps[k])
  }

  ghost predicate Swept(until: int, steps: seq<Step>) {
    exists i :: SweptAt(until, steps, i)
  }

  predicate AnyOwned(steps: seq<Step>) {
    exists i :: 0 <= i < |steps| && Owned(steps[i])
  }

  /** The request finalizes after its lease was swept. */
  ghost predicate Twice(until: int, steps: seq<Step>, level: Level) {
    exists i, j :: SweptAt(until, steps, i) && i < j < |steps| && Returns(steps[j], level)
  }

  /** A lease write records both levels, so the user's also repairs a lost key lease. */
  predicate KeyLeased(a: Admission) {
    a.Key() > 0 && ((a.keyGrant.Some? && a.keyLeaseOk) || (a.userGrant.Some? && a.userLeaseOk))
  }

  predicate UserLeased(a: Admission) {
    a.User() > 0 && a.userLeaseOk
  }

  // ----- one more step -----

  lemma OwnedGrows(pre: seq<Step>, s: Step)
    ensures AnyOwned(pre + [s]) <==> AnyOwned(pre) || Owned(s)
  {
    var steps := pre + [s];
    assert steps[|pre|] == s;
    if AnyOwned(pre) {
      var i :| 0 <= i < |pre| && Owned(pre[i]);
      assert Owned(steps[i]);
    }
  }

  lemma SweptAtStays(until: int, pre: seq<Step>, s: Step, i: int)
    requires i < |pre|
    ensures SweptAt(until, pre + [s], i) <==> SweptAt(until, pre, i)
  {
    assert forall k :: 0 <= k < |pre| ==> (pre + [s])[k] == pre[k];
    if SweptAt(until, pre + [s], i) {
      forall k | 0 <= k < i ensures !Owned(pre[k]) {
        assert !Owned((pre + [s])[k]);
      }
    }
  }

  lemma SweptGrows(until: int, pre: seq<Step>, s: Step)
    ensures Swept(until, pre + [s]) <==> Swept(until, pre) || (s.Sweep? && until < s.now && !AnyOwned(pre))
  {
    var steps := pre + [s];
    assert steps[|pre|] == s;
    if i :| SweptAt(until, pre, i) {
      SweptAtStays(until, pre, s, i);
    } else if s.Sweep? && until < s.now && !AnyOwned(pre) {
      assert SweptAt(until, steps, |pre|);
    }
    if i :| SweptAt(until, steps, i) {
      if i < |pre| {
        SweptAtStays(until, pre, s, i);
      } else {
        assert forall k :: 0 <= k < i ==> pre[k] == steps[k];
      }
    }
  }

  lemma TwiceGrows(until: int, pre: seq<Step>, s: Step, level: Level)
    ensures Twice(until, pre + [s], level) <==> Twice(until, pre, level) || (Swept(until, pre) && Returns(s, level))
  {
    var steps := pre + [s];
    assert steps[|pre|] == s;
    if i, j :| SweptAt(until, pre, i) && i < j < |pre| && Returns(pre[j], level) {
      SweptAtStays(until, pre, s, i);
      assert Returns(steps[j], level);
    } else if Swept(until, pre) && Returns(s, level) {
      var i :| SweptAt(until, pre, i);
      SweptAtStays(until, pre, s, i);
      assert Returns(steps[|pre|], level);
    }
    if i, j :| SweptAt(until, steps, i) && i < j < |steps| && Returns(steps[j], level) {
      SweptAtStays(until, pre, s, i);
      assert j < |pre| ==> Returns(pre[j], level);
    }
  }

  // ----- whole runs -----

  /** What a swept request still believes it has to give back, and the totals. */
  predicate SweptState(b0: Books, r: Books, keyTwice: bool, userTwice: bool) {
    var b := ReleaseLeases(b0);
    && !HasLease(r) && r.keyLease == 0 && r.userLease == 0
    && r.quota == (if keyTwice then 0 else b0.quota)
    && r.userQuota == (if userTwice then 0 else b0.userQuota)
    && r.keyTotal == (if keyTwice && b0.quota > 0 then Minus(b.keyTotal, b0.quota) else b.keyTotal)
    && r.userTotal == (if userTwice && b0.userQuota > 0 then Minus(b.userTotal, b0.userQuota) else b.userTotal)
  }

  /** Until something happens to the lease nothing changes; then it is gone for good,
      and only a sweep leaves the request something to return again. */
  lemma {:induction false} RunWithLease(b0: Books, until: int, steps: seq<Step>)
    requires HasLease(b0) && b0.quota >= 0 && b0.userQuota >= 0
    ensures var r := Run(b0, until, steps);
      if Swept(until, steps) then SweptState(b0, r, Twice(until, steps, OfKey), Twice(until, steps, OfUser))
      else !Twice(until, steps, OfKey) && !Twice(until, steps, OfUser)
           && r == if AnyOwned(steps) then ReleaseLeases(b0).(quota := 0, userQuota := 0) else b0
  {
    if steps != [] {
      var pre, s := steps[..|steps| - 1], steps[|steps| - 1];
      assert steps == pre + [s];
      RunWithLease(b0, until, pre);
      SweptGrows(until, pre, s);
      OwnedGrows(pre, s);
      TwiceGrows(until, pre, s, OfKey);
      TwiceGrows(until, pre, s, OfUser);
    }
  }

  /** Without a lease there is nothing to sweep, and each amount goes back once. */
  lemma {:induction false} RunWithoutLease(b0: Books, until: int, steps: seq<Step>)
    requires b0.keyLease == 0 && b0.userLease == 0
    requires 0 <= b0.quota <= b0.keyTotal && 0 <= b0.userQuota <= b0.userTotal
    ensures var r := Run(b0, until, steps);
      && r.keyLease == 0 && r.userLease == 0
      && 0 <= r.quota <= b0.quota && 0 <= r.userQuota <= b0.userQuota
      && r.keyTotal == b0.keyTotal - b0.quota + r.quota && r.userTotal == b0.userTotal - b0.userQuota + r.userQuota
  {
    if steps != [] {
      RunWithoutLease(b0, until, steps[..|steps| - 1]);
    }
  }

  lemma AdmittedLeases(base: Books, a: Admission)
    requires Fresh(base)
    ensures var b := Admit(base, true, a);
      b.keyLease == (if KeyLeased(a) then a.Key() else 0) && b.userLease == (if UserLeased(a) then a.User() else 0)
  {
  }

  /** However sweeps and finalizations follow each other, a level falls below what the
      other requests hold exactly if its lease was swept before the request finalized
      and the request then finalized after all; it has then lost the amount twice. */
  lemma SweptLeaseIsReturnedTwice(base: Books, a: Admission, until: int, steps: seq<Step>)
    requires Fresh(base)
    ensures var r := Run(Admit(base, true, a), until, steps);
      && (r.keyTotal < base.keyTotal <==> base.keyTotal > 0 && KeyLeased(a) && Twice(until, steps, OfKey))
      && (r.userTotal < base.userTotal <==> base.userTotal > 0 && UserLeased(a) && Twice(until, steps, OfUser))
      && (KeyLeased(a) && Twice(until, steps, OfKey) ==> r.keyTotal == Minus(base.keyTotal, a.Key()))
      && (UserLeased(a) && Twice(until, steps, OfUser) ==> r.userTotal == Minus(base.userTotal, a.User()))
  {
    var b0 := Admit(base, true, a);
    AdmittedAmounts(base, true, a);
    AdmittedLeases(base, a);
    if HasLease(b0) {
      RunWithLease(b0, until, steps);
    } else {
      RunWithoutLease(b0, until, steps);
    }
  }

  // ----- when that can happen -----

  predicate Ordered(steps: seq<Step>) {
    forall i, j :: 0 <= i < j < |steps| ==> steps[i].now <= steps[j].now
  }

  /** Every finalization comes by the time `last`. */
  predicate FinalizedBy(steps: seq<Step>, last: int) {
    forall i :: 0 <= i < |steps| && steps[i].Finalize? ==> steps[i].now <= last
  }

  lemma TwiceComesLate(until: int, steps: seq<Step>, level: Level, last: int)
    requires Ordered(steps) && FinalizedBy(steps, last) && Twice(until, steps, level)
    ensures until < last
  {
    var i, j :| SweptAt(until, steps, i) && i < j < |steps| && Returns(steps[j], level);
    assert Owned(steps[j]) && steps[i].now <= steps[j].now;
  }

  /** Some orderly run that ends its finalizations by `last` returns a level twice. */
  ghost predicate TwicePossible(until: int, last: int) {
    exists steps: seq<Step>, level ::
      Ordered(steps) && FinalizedBy(steps, last) && Twice(until, steps, level)
  }

  /** A level can be returned twice exactly if the request may still finalize once its
      lease has run out. */
  lemma TwiceNeedsAnExpiredLease(until: int, last: int)
    ensures TwicePossible(until, last) <==> until < last
  {
    if TwicePossible(until, last) {
      var steps: seq<Step>, level :| Ordered(steps) && FinalizedBy(steps, last) && Twice(until, steps, level);
      TwiceComesLate(until, steps, level, last);
    }
    if until < last {
      var steps := [Sweep(last), Finalize(last, Calls(true, true, true))];
      assert SweptAt(until, steps, 0) && Returns(steps[1], OfKey);
      assert Twice(until, steps, OfKey);
    }
  }

  /** The lease is written before the request's budget starts to run. Finalizing within
      the budget can still come after the lease has run out exactly if the budget is
      longer than what the lease then has left. The longest budget is, unless the two
      fall into the same millisecond. */
  lemma BudgetAgainstLease(written: int, started: int, budget: int)
    ensures TwicePossible(written + LEASE_TTL, started + budget) <==> LEASE_TTL - (started - written) < budget
    ensures TwicePossible(written + LEASE_TTL, started + MAX_BUDGET) <==> written < started
  {
    TwiceNeedsAnExpiredLease(written + LEASE_TTL, started + budget);
    TwiceNeedsAnExpiredLease(written + LEASE_TTL, started + MAX_BUDGET);
  }
}
