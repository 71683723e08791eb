/** The login throttle: a per-key automaton of failures, cooldown and in-flight
    slots, kept in a map that is swept when it grows too large. */
module Throttle {
  import opened Options

  const LOGIN_FAIL_LIMIT := 10
  const LOGIN_COOLDOWN := 60_000_000_000
  const MAX_CONCURRENT := 4
  const MAX_ENTRIES := 4096
  const VISIT_BUDGET := 8192

  /** One source address. `until` is None for the zero time. */
  datatype Entry = Entry(count: int, until: Option<int>, inflight: int)

  type Slot = Option<Entry>
  type Table = map<string, Entry>

  // ----- one key, as a value -----

  predicate Cooling(e: Entry, now: int) {
    e.until.Some? && now < e.until.value
  }

  function AllowSlot(s: Slot, capped: bool, now: int): (Slot, bool) {
    match s
    case None => (Some(Entry(0, None, 1)), true)
    case Some(e) =>
      if Cooling(e, now) then (s, false)
      else if capped && e.inflight >= MAX_CONCURRENT then (s, false)
      else (Some(e.(inflight := e.inflight + 1)), true)
  }

  /** The clock is read twice: `check` decides whether the cooldown is over and
      `stamp` starts a new one. */
  function FailSlot(s: Slot, limit: int, cooldown: int, check: int, stamp: int): Slot {
    var e0 := s.GetOr(Entry(0, None, 0));
    var e1 := if e0.until.Some? && !(check < e0.until.value) then e0.(count := 0, until := None) else e0;
    var e2 := e1.(inflight := if e1.inflight > 0 then e1.inflight - 1 else e1.inflight, count := e1.count + 1);
    Some(if e2.count >= limit then e2.(count := 0, until := Some(stamp + cooldown)) else e2)
  }

  function ReleaseSlot(s: Slot): Slot {
    match s
    case None => None
    case Some(e) =>
      var e1 := e.(inflight := if e.inflight > 0 then e.inflight - 1 else e.inflight);
      if e1.inflight == 0 && e1.count == 0 && e1.until.None? then None else Some(e1)
  }

  function SuccessSlot(s: Slot): Slot {
    match s
    case None => None
    case Some(e) => if e.inflight <= 0 then None else Some(Entry(0, None, e.inflight))
  }

  /** A failure gives one slot back and is counted from the end of the last cooldown;
      the one that reaches the limit starts a cooldown, any other leaves a running one. */
  lemma FailTells(s: Slot, limit: int, cooldown: int, check: int, stamp: int)
    ensures var e := FailSlot(s, limit, cooldown, check, stamp).GetOr(Entry(0, None, 0));
            var running := s.Some? && s.value.until.Some? && check < s.value.until.value;
            var counted := if s.Some? && (s.value.until.None? || running) then s.value.count + 1 else 1;
      && FailSlot(s, limit, cooldown, check, stamp).Some?
      && e.inflight == (if s.Some? && s.value.inflight > 0 then s.value.inflight - 1 else if s.Some? then s.value.inflight else 0)
      && (if counted >= limit then e.count == 0 && e.until == Some(stamp + cooldown)
          else e.count == counted && e.until == if running then s.value.until else None)
  {
  }

  /** A release only gives the slot back; an entry with nothing left in it goes. */
  lemma ReleaseTells(s: Slot)
    ensures var r := ReleaseSlot(s);
      && (s.None? ==> r.None?)
      && (s.Some? ==> (r.None? <==> s.value.inflight in {0, 1} && s.value.count == 0 && s.value.until.None?))
      && (r.Some? ==> r.value.count == s.value.count && r.value.until == s.value.until
                      && r.value.inflight == if s.value.inflight > 0 then s.value.inflight - 1 else s.value.inflight)
  {
  }

  /** A success forgets failures and cooldown, and leaves the slots in flight. */
  lemma SuccessTells(s: Slot)
    ensures SuccessSlot(s) == if s.Some? && s.value.inflight > 0 then Some(Entry(0, None, s.value.inflight)) else None
  {
  }

  // ----- the table -----

  function Look(m: Table, ip: string): Slot {
    if ip in m then Some(m[ip]) else None
  }

  function Put(m: Table, ip: string, s: Slot): Table {
    match s
    case None => m - {ip}
    case Some(e) => m[ip := e]
  }

  function Keep(m: Table, kept: set<string>): Table {
    map k | k in m && k in kept :: m[k]
  }

  /** What a sweep at time `now` may leave behind, for any iteration order: it
      does nothing below the threshold; otherwise fewer than half the threshold
      remain, a cooling entry goes only to reach that mark exactly, and a cooling
      entry with requests in flight goes only when no idle entry is left. */
  ghost predicate Swept(before: Table, after: Table, now: int) {
    if |before| < MAX_ENTRIES then after == before
    else
      && |after| < MAX_ENTRIES / 2
      && after == Keep(before, after.Keys)
      && (forall k :: k in before && k !in after && Cooling(before[k], now) ==> |after| == MAX_ENTRIES / 2 - 1)
      && (forall k, j :: k in before && k !in after && Cooling(before[k], now) && before[k].inflight > 0 && j in after
                         ==> after[j].inflight > 0)
  }

  predicate EntryOk(e: Entry, limit: int, capped: bool) {
    && 0 <= e.count < limit
    && 0 <= e.inflight
    && (capped ==> e.inflight <= MAX_CONCURRENT)
  }

  ghost predicate TableOk(m: Table, limit: int, capped: bool) {
    forall k :: k in m ==> EntryOk(m[k], limit, capped)
  }

  lemma PutSize(m: Table, ip: string, s: Slot)
    ensures |Put(m, ip, s)| <= |m| + 1
  {
    assert Put(m, ip, s).Keys <= m.Keys + {ip};
    SubsetSize(Put(m, ip, s).Keys, m.Keys + {ip});
  }

  lemma SubsetSize<T>(a: set<T>, b: set<T>)
    requires a <= b
    ensures |a| <= |b|
  {
    assert |b - a| + |a| == |b| by { assert b == (b - a) + a; }
  }

  lemma KeepKeys(m: Table, n: Table)
    requires n.Keys <= m.Keys && forall k :: k in n ==> n[k] == m[k]
    ensures n == Keep(m, n.Keys)
  {
  }

  lemma OverwriteThenDrop(m: Table, ip: string, e: Entry)
    ensures m[ip := e] - {ip} == m - {ip}
  {
  }

  /** One call on the throttle; `kept` is what the sweep inside the call left. */
  datatype Op =
    | Allow(ip: string, now: int)
    | Fail(ip: string, sweepAt: int, check: int, stamp: int, kept: set<string>)
    | Release(ip: string, sweepAt: int, kept: set<string>)
    | Success(ip: string)

  datatype Config = Config(limit: int, cooldown: int, capped: bool)

  function Apply(c: Config, m: Table, op: Op): Table {
    match op
    case Allow(ip, now) => Put(m, ip, AllowSlot(Look(m, ip), c.capped, now).0)
    case Fail(ip, _, check, stamp, kept) =>
      var s := Keep(m, kept);
      Put(s, ip, FailSlot(Look(s, ip), c.limit, c.cooldown, check, stamp))
    case Release(ip, _, kept) => Keep(Put(m, ip, ReleaseSlot(Look(m, ip))), kept)
    case Success(ip) => Put(m, ip, SuccessSlot(Look(m, ip)))
  }

  /** The sweep inside the call did what Swept allows. */
  ghost predicate SweepOk(m: Table, op: Op) {
    match op
    case Fail(_, sweepAt, _, _, kept) => Swept(m, Keep(m, kept), sweepAt)
    case Release(ip, sweepAt, kept) =>
      var r := Put(m, ip, ReleaseSlot(Look(m, ip)));
      Swept(r, Keep(r, kept), sweepAt)
    case _ => true
  }

  class FailureThrottle {
    var limit: int
    var cooldown: int
    var capConcurrent: bool
    var fails: Table
    /** Allow calls since the last Fail or Release. */
    ghost var allowsSince: nat

    ghost predicate Valid()
      reads this
    {
      && limit > 0
      && cooldown > 0
      && TableOk(fails, limit, capConcurrent)
      && |fails| <= MAX_ENTRIES + allowsSince
    }

    ghost function Conf(): Config
      reads this
    {
      Config(limit, cooldown, capConcurrent)
    }

    constructor (failLimit: int, failCooldown: int)
      ensures Valid() && fails == map[] && capConcurrent && allowsSince == 0
      ensures limit == if failLimit <= 0 then LOGIN_FAIL_LIMIT else failLimit
      ensures cooldown == if failCooldown <= 0 then LOGIN_COOLDOWN else failCooldown
    {
      limit := if failLimit <= 0 then LOGIN_FAIL_LIMIT else failLimit;
      cooldown := if failCooldown <= 0 then LOGIN_COOLDOWN else failCooldown;
      capConcurrent := true;
      fails := map[];
      allowsSince := 0;
    }

    method WithoutConcurrencyCap()
      requires Valid()
      modifies this`capConcurrent
      ensures Valid() && !capConcurrent
    {
      capConcurrent := false;
    }

    method AllowAttempt(ip: string, now: int) returns (ok: bool)
      requires Valid()
      modifies this`fails, this`allowsSince
      ensures Valid()
      ensures fails == Apply(Conf(), old(fails), Allow(ip, now))
      ensures ok <==> ip in old(fails) ==>
        && (old(fails)[ip].until.Some? ==> old(fails)[ip].until.value <= now)
        && (capConcurrent ==> old(fails)[ip].inflight < 4)
      ensures fails == if !ok then old(fails)
                       else if ip in old(fails) then old(fails)[ip := old(fails)[ip].(inflight := old(fails)[ip].inflight + 1)]
                       else old(fails)[ip := Entry(0, None, 1)]
      ensures allowsSince == old(allowsSince) + 1
    {
      allowsSince := allowsSince + 1;
      if ip !in fails {
        fails := fails[ip := Entry(0, None, 1)];
        return true;
      }
      var e := fails[ip];
      if e.until.Some? && now < e.until.value {
        return false;
      }
      if capConcurrent && e.inflight >= MAX_CONCURRENT {
        return false;
      }
      fails := fails[ip := e.(inflight := e.inflight + 1)];
      return true;
    }

    method ReleaseAttempt(ip: string, sweepAt: int) returns (ghost op: Op)
      requires Valid()
      modifies this`fails, this`allowsSince
      ensures Valid() && allowsSince == 0
      ensures op.Release? && op.ip == ip && op.sweepAt == sweepAt && SweepOk(old(fails), op)
      ensures fails == Apply(Conf(), old(fails), op)
      ensures |fails| < MAX_ENTRIES
    {
      if ip in fails {
        DropSlot(ip);
      } else {
        assert fails == fails - {ip};
      }
      ghost var released := fails;
      if |fails| >= MAX_ENTRIES {
        Sweep(sweepAt);
      }
      allowsSince := 0;
      KeepKeys(released, fails);
      op := Release(ip, sweepAt, fails.Keys);
    }

    /** The part of a release that touches the entry itself. */
    method DropSlot(ip: string)
      requires TableOk(fails, limit, capConcurrent) && ip in fails
      modifies this`fails
      ensures TableOk(fails, limit, capConcurrent)
      ensures fails == Put(old(fails), ip, ReleaseSlot(Look(old(fails), ip)))
    {
      var e := fails[ip];
      if e.inflight > 0 {
        e := e.(inflight := e.inflight - 1);
      }
      OverwriteThenDrop(fails, ip, e);
      fails := fails[ip := e];
      if e.inflight == 0 && e.count == 0 && e.until.None? {
        fails := fails - {ip};
      }
    }

    method RetryAfter(ip: string, now: int) returns (d: int)
      requires Valid()
      ensures d >= 0
      ensures d > 0 <==> ip in fails && Cooling(fails[ip], now)
      ensures d > 0 ==> fails[ip].until == Some(now + d)
    {
      if ip !in fails {
        return 0;
      }
      var e := fails[ip];
      if e.until.Some? && e.until.value - now > 0 {
        return e.until.value - now;
      }
      return 0;
    }

    method FailAttempt(ip: string, sweepAt: int, check: int, stamp: int) returns (ghost op: Op)
      requires Valid()
      modifies this`fails, this`allowsSince
      ensures Valid() && allowsSince == 0
      ensures op.Fail? && op.ip == ip && op.sweepAt == sweepAt && op.check == check && op.stamp == stamp
      ensures SweepOk(old(fails), op)
      ensures fails == Apply(Conf(), old(fails), op)
      ensures |fails| <= MAX_ENTRIES
    {
      Sweep(sweepAt);
      ghost var swept := fails;
      KeepKeys(old(fails), swept);
      CountFailure(ip, check, stamp);
      PutSize(swept, ip, Some(fails[ip]));
      allowsSince := 0;
      op := Fail(ip, sweepAt, check, stamp, swept.Keys);
    }

    /** The part of a failure that touches the entry itself. */
    method CountFailure(ip: string, check: int, stamp: int)
      requires TableOk(fails, limit, capConcurrent) && limit > 0
      modifies this`fails
      ensures TableOk(fails, limit, capConcurrent) && ip in fails
      ensures fails == Put(old(fails), ip, FailSlot(Look(old(fails), ip), limit, cooldown, check, stamp))
    {
      var e := Entry(0, None, 0);
      if ip in fails {
        e := fails[ip];
        if e.until.Some? && !(check < e.until.value) {
          e := e.(count := 0, until := None);
        }
      }
      if e.inflight > 0 {
        e := e.(inflight := e.inflight - 1);
      }
      e := e.(count := e.count + 1);
      if e.count >= limit {
        e := e.(count := 0, until := Some(stamp + cooldown));
      }
      fails := fails[ip := e];
    }

    method SucceedAttempt(ip: string)
      requires Valid()
      modifies this`fails
      ensures Valid()
      ensures fails == Apply(Conf(), old(fails), Success(ip))
    {
      if ip !in fails {
        return;
      }
      var e := fails[ip].(count := 0, until := None);
      fails := fails[ip := e];
      if e.inflight <= 0 {
        fails := fails - {ip};
      }
    }

    /** Three passes over the table, each in an arbitrary order. */
    method Sweep(now: int)
      requires TableOk(fails, limit, capConcurrent)
      modifies this`fails
      ensures TableOk(fails, limit, capConcurrent)
      ensures Swept(old(fails), fails, now)
    {
      if |fails| < MAX_ENTRIES {
        return;
      }
      ghost var before := fails;
      var pending := fails.Keys;
      var visited := 0;
      while pending != {}
        invariant pending <= fails.Keys
        invariant fails == Keep(before, fails.Keys)
        invariant forall k :: k in before && k !in fails ==> !Cooling(before[k], now)
        decreases pending
      {
        var ip :| ip in pending;
        pending := pending - {ip};
        visited := visited + 1;
        if visited > VISIT_BUDGET {
          break;
        }
        if !(fails[ip].until.Some? && now < fails[ip].until.value) {
          fails := fails - {ip};
        }
      }
      ghost var first := fails;
      EvictTo(true);
      ghost var second := fails;
      EvictTo(false);
      assert fails == Keep(before, fails.Keys);
    }

    method EvictTo(wantIdle: bool)
      requires TableOk(fails, limit, capConcurrent)
      modifies this`fails
      ensures TableOk(fails, limit, capConcurrent)
      ensures fails == Keep(old(fails), fails.Keys)
      ensures wantIdle ==> forall k :: k in old(fails) && old(fails)[k].inflight > 0 ==> k in fails
      ensures fails != old(fails) ==> |fails| >= MAX_ENTRIES / 2 - 1 && |old(fails)| >= MAX_ENTRIES / 2
      ensures wantIdle && |fails| >= MAX_ENTRIES / 2 ==> forall k :: k in fails ==> fails[k].inflight > 0
      ensures !wantIdle ==> |fails| < MAX_ENTRIES / 2
    {
      ghost var before := fails;
      var pending := fails.Keys;
      while pending != {}
        invariant pending <= fails.Keys
        invariant fails == Keep(before, fails.Keys)
        invariant wantIdle ==> forall k :: k in before && before[k].inflight > 0 ==> k in fails
        invariant fails != before ==> |fails| >= MAX_ENTRIES / 2 - 1 && |before| >= MAX_ENTRIES / 2
        invariant forall k :: k in fails && k !in pending ==> wantIdle && fails[k].inflight > 0
        decreases pending
      {
        var ip :| ip in pending;
        pending := pending - {ip};
        if |fails| < MAX_ENTRIES / 2 {
          return;
        }
        if wantIdle && fails[ip].inflight > 0 {
          continue;
        }
        ghost var larger := fails;
        fails := fails - {ip};
        assert larger.Keys == fails.Keys + {ip};
        assert |larger.Keys| == |fails.Keys| + 1;
      }
      if !wantIdle {
        assert fails.Keys == {};
        assert |fails.Keys| == 0;
      }
    }
  }
}
