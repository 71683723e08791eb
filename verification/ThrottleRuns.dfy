/** Safety of the throttle over whole runs: any interleaving of calls on any keys,
    with any sweep the table allows. */
module ThrottleRuns {
  import opened Options
  import opened Throttle

  function TableAfter(c: Config, ops: seq<Op>): Table {
    if ops == [] then map[] else Apply(c, TableAfter(c, ops[..|ops| - 1]), ops[|ops| - 1])
  }

  ghost predicate Legal(c: Config, ops: seq<Op>) {
    ops == []
    || (var before := ops[..|ops| - 1];
        Legal(c, before) && SweepOk(TableAfter(c, before), ops[|ops| - 1]))
  }

  /** Allow calls since the last Fail or Release. */
  function AllowsSince(ops: seq<Op>): nat {
    if ops == [] then 0
    else match ops[|ops| - 1]
      case Allow(_, _) => AllowsSince(ops[..|ops| - 1]) + 1
      case Success(_) => AllowsSince(ops[..|ops| - 1])
      case _ => 0
  }

  lemma EntriesOk(c: Config, m: Table, op: Op)
    requires c.limit > 0 && TableOk(m, c.limit, c.capped)
    ensures TableOk(Apply(c, m, op), c.limit, c.capped)
  {
  }

  /** In every reachable state the counters are in range and the table exceeds its
      bound by no more than the Allow calls since the last Fail or Release. */
  lemma {:induction false} ReachableStateBounds(c: Config, ops: seq<Op>)
    requires c.limit > 0 && Legal(c, ops)
    ensures forall k :: k in TableAfter(c, ops) ==>
      EntryOk(TableAfter(c, ops)[k], c.limit, c.capped)
    ensures |TableAfter(c, ops)| <= MAX_ENTRIES + AllowsSince(ops)
    ensures ops != [] && ops[|ops| - 1].Fail? ==> |TableAfter(c, ops)| <= MAX_ENTRIES
    ensures ops != [] && ops[|ops| - 1].Release? ==> |TableAfter(c, ops)| < MAX_ENTRIES
  {
    if ops != [] {
      var before, op := ops[..|ops| - 1], ops[|ops| - 1];
      ReachableStateBounds(c, before);
      var m := TableAfter(c, before);
      EntriesOk(c, m, op);
      match op
      case Allow(ip, now) => PutSize(m, ip, AllowSlot(Look(m, ip), c.capped, now).0);
      case Fail(ip, _, check, stamp, kept) =>
        var s := Keep(m, kept);
        PutSize(s, ip, FailSlot(Look(s, ip), c.limit, c.cooldown, check, stamp));
      case Release(_, _, _) =>
      case Success(ip) =>
        assert Put(m, ip, SuccessSlot(Look(m, ip))).Keys <= m.Keys;
        SubsetSize(Put(m, ip, SuccessSlot(Look(m, ip))).Keys, m.Keys);
    }
  }

  // ----- the contract of one key -----

  predicate Granted(c: Config, m: Table, op: Op, ip: string) {
    op.Allow? && op.ip == ip && AllowSlot(Look(m, ip), c.capped, op.now).1
  }

  predicate Completes(op: Op, ip: string) {
    (op.Fail? || op.Release?) && op.ip == ip
  }

  /** Grants of `ip` that have not been completed by a Fail or a Release. */
  function Outstanding(c: Config, ops: seq<Op>, ip: string): int {
    if ops == [] then 0
    else
      var before, op := ops[..|ops| - 1], ops[|ops| - 1];
      Outstanding(c, before, ip)
      + (if Granted(c, TableAfter(c, before), op, ip) then 1 else 0)
      - (if Completes(op, ip) then 1 else 0)
  }

  /** The last instant any call has read from the clock. */
  function Clock(ops: seq<Op>, start: int): int {
    if ops == [] then start
    else match ops[|ops| - 1]
      case Allow(_, now) => now
      case Fail(_, _, _, stamp, _) => stamp
      case Release(_, sweepAt, _) => sweepAt
      case Success(_) => Clock(ops[..|ops| - 1], start)
  }

  predicate Forward(op: Op, clock: int) {
    match op
    case Allow(_, now) => clock <= now
    case Fail(_, sweepAt, check, stamp, _) => clock <= sweepAt <= check <= stamp
    case Release(_, sweepAt, _) => clock <= sweepAt
    case Success(_) => true
  }

  predicate Survives(c: Config, m: Table, op: Op, ip: string) {
    match op
    case Fail(_, _, _, _, kept) => ip in m ==> ip in kept
    case Release(k, _, kept) => ip in Put(m, k, ReleaseSlot(Look(m, k))) ==> ip in kept
    case _ => true
  }

  /** The clock never goes back and, for key `ip`: each Fail or Release completes
      one earlier grant, no Success is called, no sweep evicts it. Other keys are
      unconstrained. */
  ghost predicate Contract(c: Config, ops: seq<Op>, ip: string, start: int) {
    ops == []
    || (var before, op := ops[..|ops| - 1], ops[|ops| - 1];
        && Contract(c, before, ip, start)
        && Forward(op, Clock(before, start))
        && (Completes(op, ip) ==> Outstanding(c, before, ip) > 0)
        && !(op.Success? && op.ip == ip)
        && Survives(c, TableAfter(c, before), op, ip))
  }

  predicate FailsWithin(op: Op, ip: string, a: int, b: int) {
    op.Fail? && op.ip == ip && a <= op.stamp <= b
  }

  /** Failures of `ip` completed between the instants a and b. */
  function Failures(ops: seq<Op>, ip: string, a: int, b: int): nat {
    if ops == [] then 0
    else Failures(ops[..|ops| - 1], ip, a, b) + (if FailsWithin(ops[|ops| - 1], ip, a, b) then 1 else 0)
  }

  // ----- the rate bound -----

  /** `cycles` counts cooldowns started in the window from outside a cooldown, the
      latest at `last`; `since` counts failures after that. */
  datatype Tally = Tally(cycles: nat, since: nat, last: int)

  predicate Opens(c: Config, s: Slot, check: int, stamp: int) {
    && !(s.Some? && Cooling(s.value, check))
    && FailSlot(s, c.limit, c.cooldown, check, stamp).value.until.Some?
  }

  function TallyAfter(c: Config, ops: seq<Op>, ip: string, a: int, b: int): Tally {
    if ops == [] then Tally(0, 0, 0)
    else
      var before, op := ops[..|ops| - 1], ops[|ops| - 1];
      var t := TallyAfter(c, before, ip, a, b);
      if !FailsWithin(op, ip, a, b) then t
      else if Opens(c, Look(TableAfter(c, before), ip), op.check, op.stamp) then Tally(t.cycles + 1, 0, op.stamp)
      else Tally(t.cycles, t.since + 1, t.last)
  }

  predicate SlotInv(c: Config, s: Slot, outstanding: int) {
    match s
    case None => outstanding == 0
    case Some(e) => EntryOk(e, c.limit, true) && e.inflight == outstanding
  }

  /** At most three failures can follow the one that opens a cooldown until the
      first one after it, which starts counting again. */
  predicate SinceInv(s: Slot, clock: int, since: nat) {
    match s
    case None => since <= 3
    case Some(e) =>
      if e.until.None? then since <= 3 + e.count
      else since <= 3 && (clock < e.until.value ==> since + e.inflight <= 3)
  }

  /** Successive openings are at least one cooldown apart. */
  predicate SpacingInv(c: Config, s: Slot, clock: int, t: Tally, a: int) {
    t.cycles > 0 ==>
      && a + (t.cycles - 1) * c.cooldown <= t.last <= clock
      && t.last + c.cooldown <= (if s.Some? && s.value.until.Some? then s.value.until.value else clock)
  }

  predicate WindowInv(c: Config, s: Slot, clock: int, t: Tally, failures: nat, a: int, b: int) {
    && failures <= (t.cycles + 1) * (c.limit + 3)
    && (t.cycles > 0 ==> a + (t.cycles - 1) * c.cooldown <= b)
    && (clock <= b ==>
        && failures <= t.cycles * (c.limit + 3) + t.since
        && SinceInv(s, clock, t.since)
        && SpacingInv(c, s, clock, t, a))
  }

  predicate Sane(c: Config) {
    c.capped && c.limit > 0 && c.cooldown > 0
  }

  /** A failure of the key itself. */
  lemma FailKeeps(c: Config, s: Slot, outstanding: int, clock: int, check: int, stamp: int,
                  t: Tally, failures: nat, a: int, b: int)
    requires Sane(c) && a <= b && outstanding > 0 && clock <= check <= stamp
    requires SlotInv(c, s, outstanding) && WindowInv(c, s, clock, t, failures, a, b)
    ensures
      var s' := FailSlot(s, c.limit, c.cooldown, check, stamp);
      var inside := a <= stamp <= b;
      var t' := if !inside then t
                else if Opens(c, s, check, stamp) then Tally(t.cycles + 1, 0, stamp)
                else Tally(t.cycles, t.since + 1, t.last);
      && SlotInv(c, s', outstanding - 1)
      && (stamp < a && t.cycles == 0 && t.since == 0 ==> WindowInv(c, s', stamp, t', failures, a, b))
      && (inside ==> WindowInv(c, s', stamp, t', failures + 1, a, b))
      && (stamp > b ==> WindowInv(c, s', stamp, t', failures, a, b))
  {
    var L := c.limit + 3;
    assert (t.cycles + 1) * L == t.cycles * L + L;
    assert (t.cycles + 2) * L == t.cycles * L + L + L;
    assert t.cycles * c.cooldown == (t.cycles - 1) * c.cooldown + c.cooldown;
  }

  /** Before the window nothing is tallied. */
  lemma {:induction false} NothingBefore(c: Config, ops: seq<Op>, ip: string, start: int, a: int, b: int)
    requires Contract(c, ops, ip, start) && Clock(ops, start) < a
    ensures TallyAfter(c, ops, ip, a, b) == Tally(0, 0, 0) && Failures(ops, ip, a, b) == 0
  {
    if ops != [] {
      NothingBefore(c, ops[..|ops| - 1], ip, start, a, b);
    }
  }

  function SlotAfter(c: Config, s: Slot, op: Op, ip: string): Slot {
    if op.ip != ip then s
    else match op
      case Allow(_, now) => AllowSlot(s, c.capped, now).0
      case Fail(_, _, check, stamp, _) => FailSlot(s, c.limit, c.cooldown, check, stamp)
      case Release(_, _, _) => ReleaseSlot(s)
      case Success(_) => SuccessSlot(s)
  }

  /** As long as it is not evicted, a key sees only the calls made for it. */
  lemma KeyIsIndependent(c: Config, m: Table, op: Op, ip: string)
    requires Survives(c, m, op, ip)
    ensures Look(Apply(c, m, op), ip) == SlotAfter(c, Look(m, ip), op, ip)
  {
  }

  /** Any other call: time passes, and the slot is granted, released or untouched. */
  lemma OtherCallKeeps(c: Config, s: Slot, s': Slot, outstanding: int, outstanding': int, clock: int, clock': int,
                       t: Tally, failures: nat, a: int, b: int)
    requires Sane(c) && clock <= clock'
    requires SlotInv(c, s, outstanding) && WindowInv(c, s, clock, t, failures, a, b)
    requires || (s' == s && outstanding' == outstanding)
             || (s' == ReleaseSlot(s) && outstanding > 0 && outstanding' == outstanding - 1)
             || (s' == AllowSlot(s, true, clock').0
                 && outstanding' == outstanding + (if AllowSlot(s, true, clock').1 then 1 else 0))
    ensures SlotInv(c, s', outstanding') && WindowInv(c, s', clock', t, failures, a, b)
  {
  }

  lemma ClockMoves(c: Config, before: seq<Op>, op: Op, ip: string, start: int)
    requires Contract(c, before + [op], ip, start)
    ensures Contract(c, before, ip, start) && Clock(before, start) <= Clock(before + [op], start)
  {
    assert (before + [op])[..|before|] == before;
  }

  /** The key's slot, its outstanding grants and its tallied failures fit together. */
  ghost predicate RateInv(c: Config, ops: seq<Op>, ip: string, start: int, a: int, b: int) {
    && SlotInv(c, Look(TableAfter(c, ops), ip), Outstanding(c, ops, ip))
    && WindowInv(c, Look(TableAfter(c, ops), ip), Clock(ops, start), TallyAfter(c, ops, ip, a, b),
                 Failures(ops, ip, a, b), a, b)
  }

  lemma {:induction false} RateInvariant(c: Config, ops: seq<Op>, ip: string, start: int, a: int, b: int)
    requires Sane(c) && a <= b && Contract(c, ops, ip, start)
    ensures RateInv(c, ops, ip, start, a, b)
  {
    if ops != [] {
      var before, op := ops[..|ops| - 1], ops[|ops| - 1];
      assert ops == before + [op];
      ClockMoves(c, before, op, ip, start);
      RateInvariant(c, before, ip, start, a, b);
      if op.Fail? && op.ip == ip {
        OwnFailureStep(c, before, op, ip, start, a, b);
      } else {
        OtherStep(c, before, op, ip, start, a, b);
      }
    }
  }

  lemma OwnFailureStep(c: Config, before: seq<Op>, op: Op, ip: string, start: int, a: int, b: int)
    requires Sane(c) && a <= b && Contract(c, before + [op], ip, start) && RateInv(c, before, ip, start, a, b)
    requires op.Fail? && op.ip == ip
    ensures RateInv(c, before + [op], ip, start, a, b)
  {
    assert (before + [op])[..|before|] == before;
    ClockMoves(c, before, op, ip, start);
    var m := TableAfter(c, before);
    KeyIsIndependent(c, m, op, ip);
    if op.stamp < a {
      NothingBefore(c, before, ip, start, a, b);
    }
    FailKeeps(c, Look(m, ip), Outstanding(c, before, ip), Clock(before, start), op.check, op.stamp,
              TallyAfter(c, before, ip, a, b), Failures(before, ip, a, b), a, b);
  }

  lemma OtherStep(c: Config, before: seq<Op>, op: Op, ip: string, start: int, a: int, b: int)
    requires Sane(c) && a <= b && Contract(c, before + [op], ip, start) && RateInv(c, before, ip, start, a, b)
    requires !(op.Fail? && op.ip == ip)
    ensures RateInv(c, before + [op], ip, start, a, b)
  {
    var ops := before + [op];
    assert ops[..|before|] == before;
    ClockMoves(c, before, op, ip, start);
    var m := TableAfter(c, before);
    KeyIsIndependent(c, m, op, ip);
    OtherCallKeeps(c, Look(m, ip), Look(TableAfter(c, ops), ip), Outstanding(c, before, ip), Outstanding(c, ops, ip),
                   Clock(before, start), Clock(ops, start), TallyAfter(c, before, ip, a, b),
                   Failures(before, ip, a, b), a, b);
  }

  // ----- nobody is refused without cause -----

  /** The failures of `ip` in the whole run. */
  function FailsOf(ops: seq<Op>, ip: string): nat {
    if ops == [] then 0
    else FailsOf(ops[..|ops| - 1], ip) + (if ops[|ops| - 1].Fail? && ops[|ops| - 1].ip == ip then 1 else 0)
  }

  /** Below the limit the slot counts exactly the failures and the grants outstanding. */
  predicate Counting(s: Slot, failures: nat, outstanding: int) {
    match s
    case None => failures == 0 && outstanding == 0
    case Some(e) => e.until.None? && e.count == failures && e.inflight == outstanding && outstanding >= 0
  }

  lemma CountingStep(c: Config, s: Slot, op: Op, ip: string, failures: nat, outstanding: int)
    requires Counting(s, failures, outstanding) && !(op.Success? && op.ip == ip) && failures < c.limit
    requires Completes(op, ip) ==> outstanding > 0
    ensures var granted := op.Allow? && op.ip == ip && AllowSlot(s, c.capped, op.now).1;
            var failed := op.Fail? && op.ip == ip;
            var outstanding' := outstanding + (if granted then 1 else 0) - (if Completes(op, ip) then 1 else 0);
      if failed && failures + 1 == c.limit
      then SlotAfter(c, s, op, ip) == Some(Entry(0, Some(op.stamp + c.cooldown), outstanding'))
      else Counting(SlotAfter(c, s, op, ip), failures + (if failed then 1 else 0), outstanding')
  {
  }

  lemma {:induction false} CountingThroughout(c: Config, ops: seq<Op>, ip: string, start: int)
    requires Contract(c, ops, ip, start) && FailsOf(ops, ip) < c.limit
    ensures Counting(Look(TableAfter(c, ops), ip), FailsOf(ops, ip), Outstanding(c, ops, ip))
  {
    if ops != [] {
      var before, op := ops[..|ops| - 1], ops[|ops| - 1];
      CountingThroughout(c, before, ip, start);
      CountingStep(c, Look(TableAfter(c, before), ip), op, ip, FailsOf(before, ip), Outstanding(c, before, ip));
      KeyIsIndependent(c, TableAfter(c, before), op, ip);
    }
  }

  /** An attempt of a key with fewer failures than the limit is refused only for the
      cap on attempts at a time. */
  lemma GrantedBelowTheLimit(c: Config, ops: seq<Op>, ip: string, start: int, now: int)
    requires Contract(c, ops, ip, start) && FailsOf(ops, ip) < c.limit
    ensures Granted(c, TableAfter(c, ops), Allow(ip, now), ip) <==> (c.capped ==> Outstanding(c, ops, ip) < 4)
  {
    CountingThroughout(c, ops, ip, start);
  }

  /** The failure that reaches the limit refuses the key for exactly one cooldown. */
  lemma LimitStartsTheCooldown(c: Config, before: seq<Op>, op: Op, ip: string, start: int, now: int)
    requires Contract(c, before + [op], ip, start) && op.Fail? && op.ip == ip && FailsOf(before, ip) + 1 == c.limit
    ensures Granted(c, TableAfter(c, before + [op]), Allow(ip, now), ip)
            <==> now >= op.stamp + c.cooldown && (c.capped ==> Outstanding(c, before + [op], ip) < 4)
  {
    assert (before + [op])[..|before|] == before;
    CountingThroughout(c, before, ip, start);
    CountingStep(c, Look(TableAfter(c, before), ip), op, ip, FailsOf(before, ip), Outstanding(c, before, ip));
    KeyIsIndependent(c, TableAfter(c, before), op, ip);
  }

  lemma CyclesFit(cycles: nat, cooldown: int, d: int)
    requires cooldown > 0 && d >= 0 && (cycles > 0 ==> (cycles - 1) * cooldown <= d)
    ensures cycles <= d / cooldown + 1
  {
    if cycles > d / cooldown + 1 {
      MulMonotone(d / cooldown + 1, cycles - 1, cooldown);
    }
  }

  lemma MulMonotone(x: int, y: int, z: int)
    requires x <= y && z >= 0
    ensures x * z <= y * z
  {
  }

  /** However the attempts on one address interleave, at most
      (D/C + 2) * (L + 3) of them fail within any span D. */
  lemma RateBound(c: Config, ops: seq<Op>, ip: string, start: int, a: int, d: int)
    requires Sane(c) && d >= 0 && Contract(c, ops, ip, start)
    ensures Failures(ops, ip, a, a + d) <= (d / c.cooldown + 2) * (c.limit + 3)
  {
    RateInvariant(c, ops, ip, start, a, a + d);
    var t := TallyAfter(c, ops, ip, a, a + d);
    CyclesFit(t.cycles, c.cooldown, d);
    MulMonotone(t.cycles + 1, d / c.cooldown + 2, c.limit + 3);
  }
}
