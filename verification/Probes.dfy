/** Target health: the circuit breaker with its single half-open probe slot. */
module Probes {
  import opened Options

  const BREAKER_COOLDOWN := 60_000_000_000

  /** `token` is the probe in flight (0 for none), `tokenCycle` the breaker cycle it
      belongs to. */
  datatype Health = Health(fails: int, until: Option<int>, token: nat, tokenCycle: nat, cycle: nat, recovering: bool)

  const Unseen := Health(0, None, 0, 0, 0, false)

  /** Every call on the pool that can touch a slot; Install is the reload. */
  datatype PoolOp =
    | Claim(id: string, now: int)
    | Failure(id: string, token: nat, threshold: int, now: int)
    | Success(id: string, token: nat, now: int)
    | Release(id: string, token: nat)
    | Install(live: set<string>)

  datatype PoolState = PoolState(targets: map<string, Health>, lastToken: nat)

  predicate Waiting(h: Health, now: int) {
    h.until.Some? && now < h.until.value
  }

  predicate Available(s: PoolState, id: string, now: int) {
    id in s.targets ==> !Waiting(s.targets[id], now)
  }

  /** Grants a slot only to a target in recovery whose cooldown is over and whose
      current cycle has no probe in flight. */
  function ClaimResult(s: PoolState, id: string, now: int): (PoolState, nat, bool) {
    if id !in s.targets then (s, 0, true)
    else
      var h := s.targets[id];
      if Waiting(h, now) then (s, 0, false)
      else if !h.recovering then (s, 0, true)
      else if h.token != 0 && h.tokenCycle == h.cycle then (s, 0, false)
      else
        var t := s.lastToken + 1;
        (PoolState(s.targets[id := h.(token := t, tokenCycle := h.cycle)], t), t, true)
  }

  function AfterRelease(s: PoolState, id: string, token: nat): PoolState {
    if token == 0 || id !in s.targets || s.targets[id].token != token then s
    else s.(targets := s.targets[id := s.targets[id].(token := 0)])
  }

  /** One more failure: the probe is over, and at the threshold a new cycle of the
      breaker begins. */
  function Penalized(h: Health, token: nat, threshold: int, now: int): Health {
    var mine := token != 0 && h.token == token;
    var trips := h.fails + 1 >= threshold;
    Health(if trips then 0 else h.fails + 1,
           if trips then Some(now + BREAKER_COOLDOWN) else h.until,
           if mine then 0 else h.token,
           if mine then 0 else h.tokenCycle,
           if trips then h.cycle + 1 else h.cycle,
           true)
  }

  function AfterFailure(s: PoolState, id: string, token: nat, threshold: int, now: int): PoolState {
    if threshold <= 0 then
      var r := AfterRelease(s, id, token);
      if id in r.targets then r.(targets := r.targets[id := r.targets[id].(recovering := false)]) else r
    else
      s.(targets := s.targets[id := Penalized(if id in s.targets then s.targets[id] else Unseen, token, threshold, now)])
  }

  function AfterSuccess(s: PoolState, id: string, token: nat, now: int): PoolState {
    if id !in s.targets then s
    else
      var h1 := s.targets[id].(fails := 0);
      var h2 := if token == 0 || h1.token != token then h1
                else if Waiting(h1, now) then h1.(token := 0)
                else h1.(token := 0, recovering := false);
      s.(targets := s.targets[id := h2])
  }

  function AfterInstall(s: PoolState, live: set<string>): PoolState {
    s.(targets := map id | id in live :: if id in s.targets then s.targets[id].(token := 0, tokenCycle := 0) else Unseen)
  }

  function After(s: PoolState, op: PoolOp): PoolState {
    match op
    case Claim(id, now) => ClaimResult(s, id, now).0
    case Failure(id, token, threshold, now) => AfterFailure(s, id, token, threshold, now)
    case Success(id, token, now) => AfterSuccess(s, id, token, now)
    case Release(id, token) => AfterRelease(s, id, token)
    case Install(live) => AfterInstall(s, live)
  }

  function AfterAll(s: PoolState, ops: seq<PoolOp>): PoolState {
    if ops == [] then s else After(AfterAll(s, ops[..|ops| - 1]), ops[|ops| - 1])
  }

  /** Tokens are issued in order, so no slot holds one that has not been issued, and
      no two slots hold the same one. */
  ghost predicate Sound(s: PoolState) {
    && (forall id :: id in s.targets ==> s.targets[id].token <= s.lastToken)
    && (forall i, j :: i in s.targets && j in s.targets && i != j && s.targets[i].token != 0
                       ==> s.targets[i].token != s.targets[j].token)
  }

  /** Some slot is occupied by the probe `token`. */
  ghost predicate Held(s: PoolState, token: nat) {
    token != 0 && exists id :: id in s.targets && s.targets[id].token == token
  }

  /** What any call by anyone may do to the slots: free them, or fill them with a
      token issued later. */
  ghost predicate Rely(s: PoolState, s': PoolState) {
    && s.lastToken <= s'.lastToken
    && forall id :: id in s'.targets ==>
         var t := s'.targets[id].token;
         t == 0 || t > s.lastToken || (id in s.targets && s.targets[id].token == t)
  }

  /** Changing one slot, keeping or clearing its token, is always allowed. */
  lemma SlotChangeKeeps(s: PoolState, id: string, h: Health)
    requires Sound(s)
    requires h.token == 0 || (id in s.targets && h.token == s.targets[id].token)
    ensures Sound(s.(targets := s.targets[id := h])) && Rely(s, s.(targets := s.targets[id := h]))
  {
  }

  lemma RelyTrans(s: PoolState, s': PoolState, s'': PoolState)
    requires Rely(s, s') && Rely(s', s'')
    ensures Rely(s, s'')
  {
  }

  lemma ReleaseKeeps(s: PoolState, id: string, token: nat)
    requires Sound(s)
    ensures Sound(AfterRelease(s, id, token)) && Rely(s, AfterRelease(s, id, token))
  {
    if id in s.targets {
      SlotChangeKeeps(s, id, s.targets[id].(token := 0));
    }
  }

  lemma FailureKeeps(s: PoolState, id: string, token: nat, threshold: int, now: int)
    requires Sound(s)
    ensures Sound(AfterFailure(s, id, token, threshold, now)) && Rely(s, AfterFailure(s, id, token, threshold, now))
  {
    var r := AfterRelease(s, id, token);
    ReleaseKeeps(s, id, token);
    if threshold <= 0 && id in r.targets {
      SlotChangeKeeps(r, id, r.targets[id].(recovering := false));
      RelyTrans(s, r, AfterFailure(s, id, token, threshold, now));
    } else if threshold > 0 {
      SlotChangeKeeps(s, id, AfterFailure(s, id, token, threshold, now).targets[id]);
    }
  }

  lemma SuccessKeeps(s: PoolState, id: string, token: nat, now: int)
    requires Sound(s)
    ensures Sound(AfterSuccess(s, id, token, now)) && Rely(s, AfterSuccess(s, id, token, now))
  {
    if id in s.targets {
      SlotChangeKeeps(s, id, AfterSuccess(s, id, token, now).targets[id]);
    }
  }

  lemma AnyCallKeeps(s: PoolState, op: PoolOp)
    requires Sound(s)
    ensures Sound(After(s, op)) && Rely(s, After(s, op))
  {
    match op
    case Claim(id, now) =>
    case Failure(id, token, threshold, now) => FailureKeeps(s, id, token, threshold, now);
    case Success(id, token, now) => SuccessKeeps(s, id, token, now);
    case Release(id, token) => ReleaseKeeps(s, id, token);
    case Install(live) =>
  }

  lemma {:induction false} AnyCallsKeep(s: PoolState, ops: seq<PoolOp>)
    requires Sound(s)
    ensures Sound(AfterAll(s, ops)) && Rely(s, AfterAll(s, ops))
  {
    if ops != [] {
      AnyCallsKeep(s, ops[..|ops| - 1]);
      AnyCallKeeps(AfterAll(s, ops[..|ops| - 1]), ops[|ops| - 1]);
    }
  }

  /** A slot freed of an issued token never holds that token again, whatever other
      requests and reloads do. */
  lemma FreedStaysFree(s: PoolState, ops: seq<PoolOp>, token: nat)
    requires Sound(s) && token <= s.lastToken && !Held(s, token)
    ensures !Held(AfterAll(s, ops), token)
  {
    AnyCallsKeep(s, ops);
  }

  /** The token sits in the slot of `id` or nowhere. */
  ghost predicate OnlyAt(s: PoolState, id: string, token: nat) {
    token <= s.lastToken && forall j :: j in s.targets && token != 0 && s.targets[j].token == token ==> j == id
  }

  lemma ClaimedOnlyThere(s: PoolState, id: string, now: int)
    requires Sound(s) && ClaimResult(s, id, now).2
    ensures OnlyAt(ClaimResult(s, id, now).0, id, ClaimResult(s, id, now).1)
    ensures ClaimResult(s, id, now).1 == 0 || ClaimResult(s, id, now).1 > s.lastToken
  {
  }

  lemma OnlyAtIsStable(s: PoolState, s': PoolState, id: string, token: nat)
    requires OnlyAt(s, id, token) && Rely(s, s')
    ensures OnlyAt(s', id, token)
  {
  }

  /** Whatever others did since the claim, each of the three settlements of a claimed
      token frees it. */
  lemma SettlementFrees(s: PoolState, id: string, token: nat, threshold: int, now: int)
    requires Sound(s) && OnlyAt(s, id, token)
    ensures !Held(AfterRelease(s, id, token), token)
    ensures !Held(AfterFailure(s, id, token, threshold, now), token)
    ensures !Held(AfterSuccess(s, id, token, now), token)
  {
    ReleaseFrees(s, id, token);
    FailureFrees(s, id, token, threshold, now);
  }

  lemma ReleaseFrees(s: PoolState, id: string, token: nat)
    requires OnlyAt(s, id, token)
    ensures !Held(AfterRelease(s, id, token), token)
  {
  }

  lemma FailureFrees(s: PoolState, id: string, token: nat, threshold: int, now: int)
    requires OnlyAt(s, id, token)
    ensures !Held(AfterFailure(s, id, token, threshold, now), token)
  {
    ReleaseFrees(s, id, token);
    var r := AfterFailure(s, id, token, threshold, now);
    if threshold > 0 {
      assert forall j :: j in r.targets && j != id ==> r.targets[j] == s.targets[j];
    } else {
      var r1 := AfterRelease(s, id, token);
      assert forall j :: j in r.targets ==> r.targets[j].token == r1.targets[j].token;
    }
  }

  // ----- one probe at a time -----

  /** A claim is granted to a target that is unknown, or past its cooldown and either
      not recovering or without a probe of its current cycle; only a recovering one
      takes up the slot, under the next token. */
  lemma ClaimTells(s: PoolState, id: string, now: int)
    ensures var (s', t, ok) := ClaimResult(s, id, now);
      && (ok <==> id in s.targets ==>
            && (s.targets[id].until.Some? ==> s.targets[id].until.value <= now)
            && (s.targets[id].recovering ==> s.targets[id].token == 0 || s.targets[id].tokenCycle != s.targets[id].cycle))
      && (t != 0 <==> ok && id in s.targets && s.targets[id].recovering)
      && (t == 0 ==> s' == s)
      && (t != 0 ==> t == s'.lastToken == s.lastToken + 1
                     && s'.targets == s.targets[id := s.targets[id].(token := t, tokenCycle := s.targets[id].cycle)])
  {
  }

  /** The probe `t` occupies the slot of its target. */
  predicate Probing(s: PoolState, id: string, t: nat) {
    t != 0 && id in s.targets && s.targets[id].recovering && s.targets[id].token == t
    && s.targets[id].tokenCycle == s.targets[id].cycle
  }

  /** What ends the probe: its own result or return, a reload, a failure that opens a
      new cycle, or one recorded with the breaker switched off. */
  predicate EndsProbe(s: PoolState, op: PoolOp, id: string, t: nat) {
    match op
    case Claim(_, _) => false
    case Success(j, token, _) => j == id && token == t
    case Release(j, token) => j == id && token == t
    case Failure(j, token, threshold, _) =>
      j == id && (token == t || threshold <= 0 || (id in s.targets && s.targets[id].fails + 1 >= threshold))
    case Install(_) => true
  }

  lemma ProbeGoesOn(s: PoolState, op: PoolOp, id: string, t: nat)
    requires Probing(s, id, t) && !EndsProbe(s, op, id, t)
    ensures Probing(After(s, op), id, t)
  {
  }

  /** Nothing in the run has ended the probe. */
  predicate NeverEnded(s: PoolState, ops: seq<PoolOp>, id: string, t: nat) {
    ops == []
    || (NeverEnded(s, ops[..|ops| - 1], id, t) && !EndsProbe(AfterAll(s, ops[..|ops| - 1]), ops[|ops| - 1], id, t))
  }

  lemma {:induction false} ProbeGoesOnThroughout(s: PoolState, ops: seq<PoolOp>, id: string, t: nat)
    requires Probing(s, id, t) && NeverEnded(s, ops, id, t)
    ensures Probing(AfterAll(s, ops), id, t)
  {
    if ops != [] {
      ProbeGoesOnThroughout(s, ops[..|ops| - 1], id, t);
      ProbeGoesOn(AfterAll(s, ops[..|ops| - 1]), ops[|ops| - 1], id, t);
    }
  }

  /** While a granted probe is out, no other request gets to the target, whatever
      calls follow; and the first that ends the probe lets the next one in as soon as
      no cooldown stands against it. */
  lemma OneProbeAtATime(s: PoolState, id: string, now: int, ops: seq<PoolOp>, later: int)
    requires ClaimResult(s, id, now).1 != 0
    requires NeverEnded(ClaimResult(s, id, now).0, ops, id, ClaimResult(s, id, now).1)
    ensures var s' := AfterAll(ClaimResult(s, id, now).0, ops);
      && !ClaimResult(s', id, later).2
      && forall op :: EndsProbe(s', op, id, ClaimResult(s, id, now).1) && Available(After(s', op), id, later)
                      ==> ClaimResult(After(s', op), id, later).2
  {
    var (s1, t, ok) := ClaimResult(s, id, now);
    ProbeGoesOnThroughout(s1, ops, id, t);
    forall op | EndsProbe(AfterAll(s1, ops), op, id, t) && Available(After(AfterAll(s1, ops), op), id, later)
      ensures ClaimResult(After(AfterAll(s1, ops), op), id, later).2
    {
      EndedProbeLetsIn(AfterAll(s1, ops), op, id, t, later);
    }
  }

  lemma EndedProbeLetsIn(s: PoolState, op: PoolOp, id: string, t: nat, later: int)
    requires Probing(s, id, t) && EndsProbe(s, op, id, t) && Available(After(s, op), id, later)
    ensures ClaimResult(After(s, op), id, later).2
  {
  }

  // ----- when the breaker opens -----

  predicate OnlyFailures(ops: seq<PoolOp>, id: string, threshold: int) {
    forall k :: 0 <= k < |ops| ==> ops[k].Failure? && ops[k].id == id && ops[k].threshold == threshold
  }

  /** A target nobody has seen fail stays available below the threshold; the failure
      that reaches it shuts the target off for exactly one cooldown. From the first
      failure on, whoever gets in is a probe. */
  lemma {:induction false} BreakerOpensAtThreshold(s: PoolState, ops: seq<PoolOp>, id: string, threshold: int)
    requires (id in s.targets ==> s.targets[id] == Unseen) && OnlyFailures(ops, id, threshold) && 0 < |ops| <= threshold
    ensures var s' := AfterAll(s, ops); var n := |ops|;
      && id in s'.targets && s'.targets[id].fails == (if n < threshold then n else 0)
      && s'.targets[id].token == 0 && s'.targets[id].recovering
      && s'.targets[id].until == (if n < threshold then None else Some(ops[n - 1].now + 60_000_000_000))
      && forall later :: (Available(s', id, later) <==> n < threshold || later >= ops[n - 1].now + 60_000_000_000)
                         && (Available(s', id, later) ==> ClaimResult(s', id, later).1 != 0)
  {
    var n := |ops| - 1;
    var before := ops[..n];
    if n == 0 {
      assert AfterAll(s, before) == s;
    } else {
      BreakerOpensAtThreshold(s, before, id, threshold);
    }
    assert AfterAll(s, ops) == After(AfterAll(s, before), ops[n]);
  }

  /** One failure more: below the threshold it is only counted, at the threshold it
      opens a new cycle; it touches no other target, and of the slot only its own probe. */
  lemma PenaltyTells(s: PoolState, id: string, token: nat, threshold: int, now: int)
    requires id in s.targets && threshold > 0
    ensures var h, s' := s.targets[id], AfterFailure(s, id, token, threshold, now);
      && s'.lastToken == s.lastToken && id in s'.targets && s'.targets[id].recovering
      && s'.targets[id].token == (if token == h.token then 0 else h.token)
      && (if h.fails + 1 < threshold
          then s'.targets[id].fails == h.fails + 1 && s'.targets[id].until == h.until && s'.targets[id].cycle == h.cycle
          else s'.targets[id].fails == 0 && s'.targets[id].until == Some(now + 60_000_000_000)
               && s'.targets[id].cycle == h.cycle + 1)
      && forall j :: j != id ==> (j in s'.targets <==> j in s.targets) && (j in s.targets ==> s'.targets[j] == s.targets[j])
  {
  }

  /** A success forgets the failures; only the probe's own, outside a cooldown, ends
      the recovery. */
  lemma SuccessTells(s: PoolState, id: string, token: nat, now: int)
    requires id in s.targets
    ensures var h, h' := s.targets[id], AfterSuccess(s, id, token, now).targets[id];
            var own := token != 0 && h.token == token;
      && h'.fails == 0 && h'.until == h.until && h'.cycle == h.cycle && h'.tokenCycle == h.tokenCycle
      && h'.token == (if own then 0 else h.token)
      && (h'.recovering <==> h.recovering && !(own && (h.until.Some? ==> h.until.value <= now)))
    ensures forall j :: j != id ==>
      (j in AfterSuccess(s, id, token, now).targets <==> j in s.targets)
      && (j in s.targets ==> AfterSuccess(s, id, token, now).targets[j] == s.targets[j])
  {
  }

  /** A reload drops what is gone, frees every slot and forgives nothing; a new target
      starts out untouched. */
  lemma InstallTells(s: PoolState, live: set<string>, id: string)
    ensures var r := After(s, Install(live));
      && r.lastToken == s.lastToken
      && (id in r.targets <==> id in live)
      && (id in live && id !in s.targets ==> r.targets[id] == Health(0, None, 0, 0, 0, false))
      && (id in live && id in s.targets ==>
            && r.targets[id].token == 0 && r.targets[id].fails == s.targets[id].fails
            && r.targets[id].until == s.targets[id].until && r.targets[id].cycle == s.targets[id].cycle
            && r.targets[id].recovering == s.targets[id].recovering)
  {
  }

  class Pool {
    var targets: map<string, Health>
    var lastToken: nat

    ghost function State(): PoolState
      reads this
    {
      PoolState(targets, lastToken)
    }

    ghost predicate Valid()
      reads this
    {
      Sound(State())
    }

    method TargetAvailable(id: string, now: int) returns (ok: bool)
      ensures ok == Available(State(), id, now)
    {
      if id !in targets {
        return true;
      }
      var h := targets[id];
      return !(h.until.Some? && now < h.until.value);
    }

    method ClaimTargetProbe(id: string, now: int) returns (token: nat, ok: bool)
      requires Valid()
      modifies this
      ensures Valid() && Rely(old(State()), State())
      ensures (State(), token, ok) == ClaimResult(old(State()), id, now)
      ensures ok <==> id in old(targets) ==>
        && (old(targets)[id].until.Some? ==> old(targets)[id].until.value <= now)
        && (old(targets)[id].recovering ==> old(targets)[id].token == 0 || old(targets)[id].tokenCycle != old(targets)[id].cycle)
    {
      AnyCallKeeps(State(), Claim(id, now));
      if id !in targets {
        return 0, true;
      }
      var h := targets[id];
      if h.until.Some? && now < h.until.value {
        return 0, false;
      }
      if !h.recovering {
        return 0, true;
      }
      if h.token != 0 && h.tokenCycle == h.cycle {
        return 0, false;
      }
      lastToken := lastToken + 1;
      targets := targets[id := h.(token := lastToken, tokenCycle := h.cycle)];
      return lastToken, true;
    }

    method ReleaseTargetProbe(id: string, token: nat)
      requires Valid()
      modifies this`targets
      ensures Valid() && State() == AfterRelease(old(State()), id, token)
    {
      AnyCallKeeps(State(), Release(id, token));
      if token == 0 {
        return;
      }
      if id in targets && targets[id].token == token {
        targets := targets[id := targets[id].(token := 0)];
      }
    }

    method RecordTargetFailure(id: string, token: nat, threshold: int, now: int)
      requires Valid()
      modifies this`targets
      ensures Valid() && State() == AfterFailure(old(State()), id, token, threshold, now)
    {
      AnyCallKeeps(State(), Failure(id, token, threshold, now));
      if threshold <= 0 {
        ReleaseTargetProbe(id, token);
        if id in targets {
          targets := targets[id := targets[id].(recovering := false)];
        }
        return;
      }
      var h := Unseen;
      if id in targets {
        h := targets[id];
      }
      h := Penalize(h, token, threshold, now);
      targets := targets[id := h];
    }

    static method Penalize(before: Health, token: nat, threshold: int, now: int) returns (h: Health)
      ensures h == Penalized(before, token, threshold, now)
    {
      h := before.(fails := before.fails + 1, recovering := true);
      if token != 0 && h.token == token {
        h := h.(token := 0, tokenCycle := 0);
      }
      if h.fails >= threshold {
        h := h.(until := Some(now + BREAKER_COOLDOWN), fails := 0, cycle := h.cycle + 1);
      }
    }

    method RecordTargetSuccess(id: string, token: nat, now: int)
      requires Valid()
      modifies this`targets
      ensures Valid() && State() == AfterSuccess(old(State()), id, token, now)
    {
      AnyCallKeeps(State(), Success(id, token, now));
      if id !in targets {
        return;
      }
      var h := targets[id].(fails := 0);
      if token == 0 || h.token != token {
        targets := targets[id := h];
        return;
      }
      h := h.(token := 0);
      if !(h.until.Some? && now < h.until.value) {
        h := h.(recovering := false);
      }
      targets := targets[id := h];
    }

    /** Everything other requests and reloads do between two steps of this one. */
    method Others(ops: seq<PoolOp>)
      requires Valid()
      modifies this
      ensures Valid() && State() == AfterAll(old(State()), ops)
    {
      ghost var start := State();
      var i := 0;
      while i < |ops|
        invariant 0 <= i <= |ops|
        invariant Valid() && State() == AfterAll(start, ops[..i])
      {
        assert ops[..i + 1][..i] == ops[..i];
        Other(ops[i]);
        i := i + 1;
      }
      assert ops[..|ops|] == ops;
    }

    method Other(op: PoolOp)
      requires Valid()
      modifies this
      ensures Valid() && State() == After(old(State()), op)
    {
      AnyCallKeeps(State(), op);
      match op
      case Claim(id, now) =>
        var _, _ := ClaimTargetProbe(id, now);
      case Failure(id, token, threshold, now) =>
        RecordTargetFailure(id, token, threshold, now);
      case Success(id, token, now) =>
        RecordTargetSuccess(id, token, now);
      case Release(id, token) =>
        ReleaseTargetProbe(id, token);
      case Install(live) =>
        targets := map id | id in live :: if id in targets then targets[id].(token := 0, tokenCycle := 0) else Unseen;
    }
  }
}
