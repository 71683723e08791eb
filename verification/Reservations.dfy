/** What one request reserves and how it gives it back: the lifetime quota of the
    key and of the user with its durable lease, and the per-minute token window. */
module Reservations {
  import opened Options

  // ----- the store's side of the lifetime quota, as values -----

  /** `keyTotal` and `userTotal` are the reserved_tokens columns, shared with other
      requests; a lease of 0 means there is no open lease row; `quota` and
      `userQuota` are the amounts the finalizer still remembers. */
  datatype Books = Books(keyTotal: int, userTotal: int, keyLease: int, userLease: int, quota: int, userQuota: int)

  /** Which of the store calls inside one release succeed. */
  datatype Calls = Calls(owned: bool, key: bool, user: bool)

  function Minus(total: int, n: int): (r: int)
    ensures 0 <= n <= total ==> r == total - n
  {
    if total - n > 0 then total - n else 0
  }

  function SyncLease(b: Books, durable: bool, ok: bool): Books {
    if !durable || !ok then b
    else b.(keyLease := if b.quota > 0 then b.quota else b.keyLease,
            userLease := if b.userQuota > 0 then b.userQuota else b.userLease)
  }

  function ReleaseDirect(b: Books, c: Calls): Books {
    var b1 := if b.quota > 0 && c.key then b.(keyTotal := Minus(b.keyTotal, b.quota), quota := 0) else b;
    if b1.userQuota > 0 && c.user then b1.(userTotal := Minus(b1.userTotal, b1.userQuota), userQuota := 0) else b1
  }

  /** Every open lease of the request, in one transaction. */
  function ReleaseLeases(b: Books): Books {
    b.(keyTotal := if b.keyLease > 0 then Minus(b.keyTotal, b.keyLease) else b.keyTotal,
       userTotal := if b.userLease > 0 then Minus(b.userTotal, b.userLease) else b.userTotal,
       keyLease := 0, userLease := 0)
  }

  predicate HasLease(b: Books) {
    b.keyLease > 0 || b.userLease > 0
  }

  function ReleaseQuota(b: Books, durable: bool, c: Calls): Books {
    if !durable then ReleaseDirect(b, c)
    else if !c.owned then b
    else if HasLease(b) then ReleaseLeases(b).(quota := 0, userQuota := 0)
    else ReleaseDirect(b, c)
  }

  /** The reservation succeeded in the store and is recorded by the finalizer. */
  function ReserveKey(b: Books, durable: bool, amount: int, leaseOk: bool): Books {
    SyncLease(b.(keyTotal := b.keyTotal + amount, quota := amount), durable, leaseOk)
  }

  function ReserveUser(b: Books, durable: bool, amount: int, leaseOk: bool): Books {
    SyncLease(b.(userTotal := b.userTotal + amount, userQuota := amount), durable, leaseOk)
  }

  // ----- the objects -----

  /** The store calls a request makes; each call may fail. */
  class Store {
    var keyTotal: int
    var userTotal: int
    var keyLease: int
    var userLease: int

    method RecordLease(quota: int, userQuota: int, ok: bool)
      modifies this`keyLease, this`userLease
      ensures keyLease == if ok && quota > 0 then quota else old(keyLease)
      ensures userLease == if ok && userQuota > 0 then userQuota else old(userLease)
    {
      if !ok {
        return;
      }
      if quota > 0 {
        keyLease := quota;
      }
      if userQuota > 0 {
        userLease := userQuota;
      }
    }

    method ReleaseOwned(ok: bool) returns (failed: bool, noLease: bool)
      modifies this
      ensures failed == !ok
      ensures noLease == (ok && old(keyLease) <= 0 && old(userLease) <= 0)
      ensures failed || noLease ==> unchanged(this)
      ensures !failed && !noLease ==> keyLease == 0 && userLease == 0
      ensures !failed && !noLease ==>
        keyTotal == (if old(keyLease) > 0 then Minus(old(keyTotal), old(keyLease)) else old(keyTotal))
        && userTotal == (if old(userLease) > 0 then Minus(old(userTotal), old(userLease)) else old(userTotal))
    {
      if !ok {
        return true, false;
      }
      if keyLease <= 0 && userLease <= 0 {
        return false, true;
      }
      if keyLease > 0 {
        keyTotal := Minus(keyTotal, keyLease);
      }
      if userLease > 0 {
        userTotal := Minus(userTotal, userLease);
      }
      keyLease, userLease := 0, 0;
      return false, false;
    }

    method ReleaseKey(amount: int, ok: bool)
      modifies this`keyTotal
      ensures keyTotal == if ok then Minus(old(keyTotal), amount) else old(keyTotal)
    {
      if ok {
        keyTotal := Minus(keyTotal, amount);
      }
    }

    method ReleaseUser(amount: int, ok: bool)
      modifies this`userTotal
      ensures userTotal == if ok then Minus(old(userTotal), amount) else old(userTotal)
    {
      if ok {
        userTotal := Minus(userTotal, amount);
      }
    }
  }

  /** The token window of one key: a counter that restarts each minute. */
  class Limiter {
    var minute: int
    var tokens: int

    predicate Valid()
      reads this
    {
      tokens >= 0
    }

    method Reserve(now: int, limit: int, est: int) returns (ok: bool)
      requires Valid() && est >= 0
      modifies this
      ensures Valid()
      ensures limit <= 0 ==> ok && unchanged(this)
      ensures limit > 0 ==> minute == now
      ensures limit > 0 ==> var held := (if old(minute) == now then old(tokens) else 0);
        && (ok <==> held + est <= limit && est <= limit)
        && tokens == (if ok then held + est else if est > limit then limit else held)
    {
      if limit <= 0 {
        return true;
      }
      if minute != now {
        minute, tokens := now, 0;
      }
      if est > limit {
        tokens := limit;
        return false;
      }
      if tokens + est > limit {
        return false;
      }
      tokens := tokens + est;
      return true;
    }

    method Commit(now: int, limit: int, reserved: int, actual: int)
      requires Valid()
      modifies this
      ensures Valid()
      ensures limit <= 0 || reserved == actual ==> unchanged(this)
      ensures limit > 0 && reserved != actual ==>
        minute == now
        && tokens == Minus((if old(minute) == now then old(tokens) else 0) + actual, reserved)
    {
      if limit <= 0 || reserved == actual {
        return;
      }
      if minute != now {
        minute, tokens := now, 0;
      }
      tokens := Minus(tokens + actual, reserved);
    }
  }

  /** The finalizer of one request. */
  class RateCommit {
    const limiter: Limiter
    const store: Store
    const limit: int
    const durable: bool
    var reserved: int
    var quotaReserved: int
    var userQuotaReserved: int
    /** The actual amounts the token window has been corrected to, in order. */
    ghost var corrections: seq<int>

    ghost function BooksNow(): Books
      reads this, store
    {
      Books(store.keyTotal, store.userTotal, store.keyLease, store.userLease, quotaReserved, userQuotaReserved)
    }

    /** `durable` says that the request has an id, which owns the leases. */
    constructor (limiter: Limiter, store: Store, limit: int, durable: bool)
      ensures this.limiter == limiter && this.store == store && this.limit == limit && this.durable == durable
      ensures reserved == 0 && quotaReserved == 0 && userQuotaReserved == 0 && corrections == []
    {
      this.limiter, this.store, this.limit, this.durable := limiter, store, limit, durable;
      reserved, quotaReserved, userQuotaReserved := 0, 0, 0;
      corrections := [];
    }

    method SetTPMReserved(amount: int)
      modifies this`reserved
      ensures reserved == amount
    {
      reserved := amount;
    }

    method SetKeyQuotaReserved(amount: int, leaseOk: bool)
      modifies this`quotaReserved, store`keyLease, store`userLease
      ensures BooksNow() == SyncLease(old(BooksNow()).(quota := amount), durable, leaseOk)
    {
      quotaReserved := amount;
      if durable {
        store.RecordLease(quotaReserved, userQuotaReserved, leaseOk);
      }
    }

    method SetUserQuotaReserved(amount: int, leaseOk: bool)
      modifies this`userQuotaReserved, store`keyLease, store`userLease
      ensures BooksNow() == SyncLease(old(BooksNow()).(userQuota := amount), durable, leaseOk)
    {
      userQuotaReserved := amount;
      if durable {
        store.RecordLease(quotaReserved, userQuotaReserved, leaseOk);
      }
    }

    method ReleaseReserved(c: Calls)
      modifies this`quotaReserved, this`userQuotaReserved, store
      ensures BooksNow() == ReleaseQuota(old(BooksNow()), durable, c)
    {
      if durable {
        var failed, noLease := store.ReleaseOwned(c.owned);
        if noLease {
          ReleaseWithoutLease(c);
          return;
        }
        if failed {
          return;
        }
        quotaReserved := 0;
        userQuotaReserved := 0;
        return;
      }
      ReleaseWithoutLease(c);
    }

    method ReleaseWithoutLease(c: Calls)
      modifies this`quotaReserved, this`userQuotaReserved, store`keyTotal, store`userTotal
      ensures BooksNow() == ReleaseDirect(old(BooksNow()), c)
    {
      if quotaReserved > 0 {
        store.ReleaseKey(quotaReserved, c.key);
        if c.key {
          quotaReserved := 0;
        }
      }
      if userQuotaReserved > 0 {
        store.ReleaseUser(userQuotaReserved, c.user);
        if c.user {
          userQuotaReserved := 0;
        }
      }
    }

    method Commit(now: int, actual: int, c: Calls)
      requires limiter.Valid()
      modifies this, store, limiter
      ensures limiter.Valid() && reserved == old(reserved)
      ensures BooksNow() == ReleaseQuota(old(BooksNow()), durable, c)
      ensures corrections == old(corrections) + [actual]
      ensures limit <= 0 || reserved == actual ==> unchanged(limiter)
      ensures limit > 0 && reserved != actual ==>
        limiter.minute == now
        && limiter.tokens == Minus((if old(limiter.minute) == now then old(limiter.tokens) else 0) + actual, reserved)
    {
      limiter.Commit(now, limit, reserved, actual);
      corrections := corrections + [actual];
      ReleaseReserved(c);
    }
  }

  // ----- properties -----

  /** What admission reserved at the two levels, if anything, and which of the lease
      writes that record it succeeded. */
  datatype Admission = Admission(keyGrant: Option<nat>, userGrant: Option<nat>, keyLeaseOk: bool, userLeaseOk: bool) {
    function Key(): nat { keyGrant.GetOr(0) }
    function User(): nat { userGrant.GetOr(0) }
  }

  function Admit(base: Books, durable: bool, a: Admission): Books {
    var b := if a.keyGrant.Some? then ReserveKey(base, durable, a.keyGrant.value, a.keyLeaseOk) else base;
    if a.userGrant.Some? then ReserveUser(b, durable, a.userGrant.value, a.userLeaseOk) else b
  }

  predicate Fresh(b: Books) {
    b.keyTotal >= 0 && b.userTotal >= 0 && b.keyLease == 0 && b.userLease == 0 && b.quota == 0 && b.userQuota == 0
  }

  function ReleaseAll(b: Books, durable: bool, calls: seq<Calls>): Books
    decreases |calls|
  {
    if calls == [] then b else ReleaseAll(ReleaseQuota(b, durable, calls[0]), durable, calls[1..])
  }

  /** The one pattern that strands a reservation: the key's lease was written, the
      user's was lost, and the owned release then forgets both amounts. */
  predicate UserLeaseLost(durable: bool, a: Admission) {
    durable && a.Key() > 0 && a.User() > 0 && a.keyLeaseOk && !a.userLeaseOk
  }

  /** A release that ends the matter: the owned call succeeds, and where it finds no
      lease, so do both direct calls. */
  predicate Succeeds(c: Calls) {
    c.owned && c.key && c.user
  }

  predicate Between(lo: int, x: int, hi: int) {
    lo <= x <= hi
  }

  /** What a run of releases keeps: each level still holds exactly what is owed. */
  predicate Holding(base: Books, durable: bool, a: Admission, b: Books) {
    && (b.quota == a.Key() || b.quota == 0)
    && (b.userQuota == a.User() || b.userQuota == 0)
    && b.keyTotal == base.keyTotal + b.quota
    && (b.keyLease == 0 || (b.keyLease == a.Key() && b.quota == a.Key()))
    && (b.userLease == 0 || (b.userLease == a.User() && b.userQuota == a.User()))
    && (HasLease(b) && b.quota > 0 ==> b.keyLease > 0)
    && (b.userTotal == base.userTotal + b.userQuota
        || (UserLeaseLost(durable, a) && b.userQuota == 0 && b.userTotal == base.userTotal + a.User()))
    && (HasLease(b) && b.userQuota > 0 && b.userLease == 0 ==> UserLeaseLost(durable, a))
    && (UserLeaseLost(durable, a) ==> b.userLease == 0 && (b.keyLease > 0 <==> b.quota > 0)
                                      && (b.quota == 0 ==> b.userQuota == 0)
                                      && b.userTotal == base.userTotal + a.User())
    && (!durable ==> !HasLease(b))
  }

  lemma AdmissionHolds(base: Books, durable: bool, a: Admission)
    requires Fresh(base)
    ensures Holding(base, durable, a, Admit(base, durable, a))
  {
  }

  lemma AdmittedAmounts(base: Books, durable: bool, a: Admission)
    requires Fresh(base)
    ensures var b := Admit(base, durable, a);
      && b.keyTotal == base.keyTotal + a.Key() && b.quota == a.Key()
      && b.userTotal == base.userTotal + a.User() && b.userQuota == a.User()
  {
  }

  /** One finalization of what was admitted: with a durable lease everything leased goes
      back together or nothing does, without one each level goes back by its own call. */
  lemma FinalizationTells(base: Books, durable: bool, a: Admission, c: Calls)
    requires Fresh(base)
    ensures var b := Admit(base, durable, a); var r := ReleaseQuota(b, durable, c);
            var leased := durable && (b.keyLease > 0 || b.userLease > 0);
            var key := if leased then c.owned && b.keyLease > 0 else c.key && (durable ==> c.owned);
            var user := if leased then c.owned && b.userLease > 0 else c.user && (durable ==> c.owned);
      && r.keyTotal == base.keyTotal + (if key then 0 else a.Key())
      && r.userTotal == base.userTotal + (if user then 0 else a.User())
      && (b.keyLease == 0 || b.keyLease == a.Key()) && (b.userLease == 0 || b.userLease == a.User())
      && (b.keyLease > 0 <==> durable && a.Key() > 0 && (a.keyLeaseOk || (a.userGrant.Some? && a.userLeaseOk)))
      && (b.userLease > 0 <==> durable && a.User() > 0 && a.userLeaseOk)
  {
  }

  lemma ReleaseOnce(b: Books, durable: bool, c: Calls)
    ensures ReleaseAll(b, durable, [c]) == ReleaseQuota(b, durable, c)
  {
    assert [c][1..] == [];
  }

  lemma ReleaseHolds(base: Books, durable: bool, a: Admission, b: Books, c: Calls)
    requires Fresh(base) && Holding(base, durable, a, b)
    ensures Holding(base, durable, a, ReleaseQuota(b, durable, c))
    ensures Succeeds(c) ==> ReleaseQuota(b, durable, c).quota == 0 && ReleaseQuota(b, durable, c).userQuota == 0
  {
  }

  lemma {:induction false} ReleaseRunHolds(base: Books, durable: bool, a: Admission, b: Books, calls: seq<Calls>)
    requires Fresh(base) && Holding(base, durable, a, b)
    ensures var r := ReleaseAll(b, durable, calls);
      && Holding(base, durable, a, r)
      && ((exists c :: c in calls && Succeeds(c)) || (b.quota == 0 && b.userQuota == 0)
          ==> r.quota == 0 && r.userQuota == 0)
    decreases |calls|
  {
    if calls != [] {
      ReleaseHolds(base, durable, a, b, calls[0]);
      ReleaseRunHolds(base, durable, a, ReleaseQuota(b, durable, calls[0]), calls[1..]);
      if exists c :: c in calls && Succeeds(c) {
        var c :| c in calls && Succeeds(c);
        if c != calls[0] {
          assert c in calls[1..];
        }
      }
    }
  }

  /** However often a request is finalized, and whichever store calls fail, neither
      level ever falls below what the other requests hold. */
  lemma NeverReleasesMore(base: Books, durable: bool, a: Admission, calls: seq<Calls>)
    requires Fresh(base)
    ensures var r := ReleaseAll(Admit(base, durable, a), durable, calls);
      && Between(base.keyTotal, r.keyTotal, base.keyTotal + a.Key())
      && Between(base.userTotal, r.userTotal, base.userTotal + a.User())
  {
    AdmissionHolds(base, durable, a);
    ReleaseRunHolds(base, durable, a, Admit(base, durable, a), calls);
  }

  /** Once one finalization succeeds the key's amount is back, and everything is
      back exactly when the user's lease was not lost behind a written key lease. */
  lemma ReturnsExactlyUnlessLeaseLost(base: Books, durable: bool, a: Admission, calls: seq<Calls>)
    requires Fresh(base) && exists c :: c in calls && Succeeds(c)
    ensures var r := ReleaseAll(Admit(base, durable, a), durable, calls);
      && r.keyTotal == base.keyTotal
      && (r.userTotal == base.userTotal <==> !UserLeaseLost(durable, a))
      && (UserLeaseLost(durable, a) ==> r.userTotal == base.userTotal + a.User())
  {
    AdmissionHolds(base, durable, a);
    ReleaseRunHolds(base, durable, a, Admit(base, durable, a), calls);
  }
}
