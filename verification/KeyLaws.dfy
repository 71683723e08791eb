/** What an owner's accepted changes keep, over whole runs: nothing is admitted that
    was not admitted before, and no limit rises. */
module KeyLaws {
  import opened Cidr
  import opened KeyPatch
  import opened Options
  import opened Text

  // ----- lists of model names -----

  /** The name occurs in the list, spaces aside. */
  predicate Names(ms: seq<string>, m: string) {
    m != "" && exists x :: x in ms && Trim(x) == m
  }

  lemma {:induction false} NormalizedNames(ms: seq<string>, m: string)
    ensures m in Normalized(ms) <==> Names(ms, m)
  {
    if ms != [] {
      NormalizedNames(ms[..|ms| - 1], m);
      assert ms == ms[..|ms| - 1] + [ms[|ms| - 1]];
    }
  }

  lemma {:induction false} TrimmedNames(ms: seq<string>, m: string)
    ensures m in Trimmed(ms) <==> Names(ms, m)
  {
    if ms != [] {
      TrimmedNames(ms[..|ms| - 1], m);
      assert ms == ms[..|ms| - 1] + [ms[|ms| - 1]];
    }
  }

  /** Names that are trimmed already are their own names. */
  lemma CleanNames(ms: seq<string>, m: string)
    requires forall x :: x in ms ==> x != "" && Trim(x) == x
    ensures Names(ms, m) <==> m in ms
  {
  }

  lemma TrimmedIsClean(ms: seq<string>)
    ensures forall x :: x in Trimmed(ms) ==> x != "" && Trim(x) == x
    ensures forall x :: x in Normalized(ms) ==> x != "" && Trim(x) == x
  {
    forall x | x in Trimmed(ms) || x in Normalized(ms) ensures x != "" && Trim(x) == x {
      TrimmedNames(ms, x);
      NormalizedNames(ms, x);
      var y :| y in ms && Trim(y) == x;
      TrimIsTight(y);
      TightIsTrimmed(x);
    }
  }

  /** What a decoded list grants. */
  predicate Grants(ms: Option<seq<string>>, m: string) {
    ms.None? || Names(ms.value, m)
  }

  lemma AllowsAsDecoded(c: Column, m: string)
    ensures AllowsModel(c, m) <==> Grants(Decode(c), m)
  {
    if Decode(c).Some? {
      NormalizedNames(Decode(c).value, m);
    }
  }

  /** Writing a list and reading it back grants the same, unless nothing is left of it. */
  lemma EncodedGrants(ms: Option<seq<string>>, m: string)
    ensures AllowsModel(Encode(ms), m) <==> Grants(ms, m) || (ms.Some? && Normalized(ms.value) == [])
  {
    AllowsAsDecoded(Encode(ms), m);
    if ms.Some? && Normalized(ms.value) != [] {
      var n := Normalized(ms.value);
      TrimmedIsClean(ms.value);
      TrimmedIsClean(n);
      NormalizedNames(ms.value, m);
      TrimmedNames(n, m);
      CleanNames(n, m);
      CleanNames(Trimmed(n), m);
      assert n[0] in n;
      TrimmedNames(n, n[0]);
      CleanNames(n, n[0]);
    }
  }

  // ----- one change -----

  predicate LimitKept(before: int, after: int) {
    before <= 0 || 0 < after <= before
  }

  /** The row a change leaves is no wider than the row it found. */
  ghost predicate Tightened(r: Row, r': Row) {
    && (forall now, a, m :: ValidAddr(a) && Admits(r', now, a, m) ==> Admits(r, now, a, m))
    && LimitKept(r.quota, r'.quota) && LimitKept(r.rpm, r'.rpm) && LimitKept(r.tpm, r'.tpm)
    && r'.group == r.group && r'.user == r.user
  }

  predicate AcceptedFromOwner(w: World, r: Row, p: Patch) {
    Verdict(w, r, p, Some(Caller(r.user, false))).Done?
  }

  /** Both columns say something that the gateway itself could have written. */
  predicate Sound(r: Row) {
    !r.models.Corrupt? && r.ips != Listed([])
  }

  lemma ModelsTighten(w: World, r: Row, p: Patch, m: string)
    requires AcceptedFromOwner(w, r, p) && (r.models.Corrupt? ==> p.models.Some?)
    requires AllowsModel(Patched(r, p, false).models, m)
    ensures AllowsModel(r.models, m)
  {
    var before, after := Decode(r.models), ModelsPatched(Decode(r.models), p);
    EncodedGrants(after, m);
    AllowsAsDecoded(r.models, m);
    if p.models.Some? && p.models.value != [] && before.Some? {
      var ms := p.models.value;
      NormalizedNames(ms, m);
      assert ms[0] in ms && Trim(ms[0]) != "";
      assert Names(ms, Trim(ms[0]));
      NormalizedNames(ms, Trim(ms[0]));
      if r.models.Json? {
        TrimmedIsClean(r.models.models);
        CleanNames(before.value, m);
      }
    } else if p.models.None? && before.Some? {
      var x := before.value[0];
      TrimmedIsClean(r.models.models);
      assert x in before.value;
      NormalizedNames(before.value, x);
      CleanNames(before.value, x);
    }
  }

  lemma AddressesTighten(w: World, r: Row, p: Patch, a: Addr)
    requires AcceptedFromOwner(w, r, p) && ValidAddr(a) && r.ips != Listed([])
    requires AllowsIp(Patched(r, p, false).ips, a)
    ensures AllowsIp(r.ips, a)
  {
    if p.ips.Some? && r.ips.Listed? {
      CoveredAdmitsLess(r.ips.nets, ParseNets(p.ips.value).value, Unmapped(a));
    }
  }

  lemma SoundChangeTightens(w: World, r: Row, p: Patch)
    requires AcceptedFromOwner(w, r, p) && Sound(r)
    ensures Sound(Patched(r, p, false)) && Tightened(r, Patched(r, p, false))
  {
    var r' := Patched(r, p, false);
    forall now, a, m | ValidAddr(a) && Admits(r', now, a, m) ensures Admits(r, now, a, m) {
      ModelsTighten(w, r, p, m);
      AddressesTighten(w, r, p, a);
    }
  }

  // ----- whole runs -----

  function AfterAll(r: Row, ps: seq<Patch>): Row {
    if ps == [] then r else Patched(AfterAll(r, ps[..|ps| - 1]), ps[|ps| - 1], false)
  }

  /** Each change is accepted from the owner in the state it meets. */
  predicate AllAccepted(w: World, r: Row, ps: seq<Patch>) {
    ps == []
    || (AllAccepted(w, r, ps[..|ps| - 1]) && AcceptedFromOwner(w, AfterAll(r, ps[..|ps| - 1]), ps[|ps| - 1]))
  }

  lemma TightenedTrans(a: Row, b: Row, c: Row)
    requires Tightened(a, b) && Tightened(b, c)
    ensures Tightened(a, c)
  {
  }

  lemma {:induction false} SoundRunTightens(w: World, r: Row, ps: seq<Patch>)
    requires AllAccepted(w, r, ps) && Sound(r)
    ensures Sound(AfterAll(r, ps)) && Tightened(r, AfterAll(r, ps))
  {
    if ps != [] {
      var before := AfterAll(r, ps[..|ps| - 1]);
      SoundRunTightens(w, r, ps[..|ps| - 1]);
      SoundChangeTightens(w, before, ps[|ps| - 1]);
      TightenedTrans(r, before, AfterAll(r, ps));
    }
  }

  /** The limits alone tighten whatever state the columns are in. */
  lemma {:induction false} LimitsNeverRise(w: World, r: Row, ps: seq<Patch>)
    requires AllAccepted(w, r, ps)
    ensures var r' := AfterAll(r, ps);
      LimitKept(r.quota, r'.quota) && LimitKept(r.rpm, r'.rpm) && LimitKept(r.tpm, r'.tpm)
  {
    if ps != [] {
      LimitsNeverRise(w, r, ps[..|ps| - 1]);
    }
  }

  // ----- exactly which rows only tighten -----

  /** Switched off, or closed to every address, in a way no owner can change. */
  predicate Closed(r: Row) {
    !r.enabled || r.ips.Unreadable?
    || (r.ips.Listed? && r.ips.nets != [] && forall p :: p in r.ips.nets ==> !Reachable(p))
  }

  const NoChange := Patch(None, None, None, None, None, None, None, None, None, None)

  /** A closed row admits nothing and stays closed. */
  lemma {:induction false} ClosedStays(w: World, r: Row, ps: seq<Patch>)
    requires AllAccepted(w, r, ps) && Closed(r)
    ensures Closed(AfterAll(r, ps))
    ensures forall now, a, m :: ValidAddr(a) ==> !Admits(AfterAll(r, ps), now, a, m)
  {
    if ps != [] {
      var before, p := AfterAll(r, ps[..|ps| - 1]), ps[|ps| - 1];
      ClosedStays(w, r, ps[..|ps| - 1]);
      if p.ips.Some? && before.ips.Listed? && before.enabled {
        var nets := ParseNets(p.ips.value).value;
        forall q | q in nets ensures !Reachable(q) {
          assert Covered(before.ips.nets, q);
          CoveredIsUnreachable(before.ips.nets, q);
        }
      }
    }
    ClosedAdmitsNothing(AfterAll(r, ps));
  }

  lemma ClosedAdmitsNothing(r: Row)
    requires Closed(r)
    ensures forall now, a, m :: ValidAddr(a) ==> !Admits(r, now, a, m)
  {
    if r.ips.Listed? {
      forall a | ValidAddr(a) && r.enabled ensures !AllowsIp(r.ips, a) {
        if AllowsIp(r.ips, a) {
          var p :| p in r.ips.nets && Contains(p, Unmapped(a));
          ReachableExactly(p);
        }
      }
    }
  }

  lemma CoveredIsUnreachable(nets: seq<Net>, p: Net)
    requires Covered(nets, p) && forall q :: q in nets ==> !Reachable(q)
    ensures !Reachable(p)
  {
    var q :| q in nets && Covers(q, p);
    CoversExactly(q, p);
    ReachableExactly(q);
    ReachableExactly(p);
    forall a | ValidAddr(a) ensures !Contains(p, Unmapped(a)) {
      assert Within(p, q, Unmapped(a));
    }
  }

  /** An open row whose columns are not sound is widened by one change. */
  lemma UnsoundWidens(w: World, r: Row) returns (ps: seq<Patch>)
    requires !Sound(r) && !Closed(r) && r.user != ""
    ensures AllAccepted(w, r, ps) && !Tightened(r, AfterAll(r, ps))
  {
    var p := if r.ips == Listed([]) then NoChange.(ips := Some(Blank)) else NoChange;
    ps := [p];
    assert ps[..0] == [];
    var r' := Patched(r, p, false);
    assert GuardPasses(r, p) && FieldsValid(w, p);
    assert AcceptedFromOwner(w, AfterAll(r, []), p);
    assert AllAccepted(w, r, []);
    assert AfterAll(r, ps) == r';
    var now := if r.expires > 0 then r.expires - 1 else 0;
    var a := SomeAddress(r'.ips);
    var m := SomeModel(r, p);
    assert Admits(r', now, a, m);
    assert !Admits(r, now, a, m);
  }

  lemma SomeAddress(t: IpText) returns (a: Addr)
    requires t.Blank? || (t.Listed? && exists p :: p in t.nets && Reachable(p))
    ensures ValidAddr(a) && AllowsIp(t, a)
  {
    if t.Blank? {
      a := Invalid;
    } else {
      var p :| p in t.nets && Reachable(p);
      ReachableExactly(p);
      a :| ValidAddr(a) && Contains(p, Unmapped(a));
    }
  }

  lemma SomeModel(r: Row, p: Patch) returns (m: string)
    requires p.models.None?
    ensures AllowsModel(Patched(r, p, false).models, m)
  {
    var ms := Decode(r.models);
    m := if ms.Some? && Normalized(ms.value) != [] then Normalized(ms.value)[0] else "";
    EncodedGrants(ms, m);
    if ms.Some? && Normalized(ms.value) != [] {
      assert m in Normalized(ms.value);
      NormalizedNames(ms.value, m);
    }
  }

  /** Whatever run of changes the owner gets accepted, the key admits no more than at
      first: this holds exactly for the rows that are sound or closed for good. */
  lemma OwnerOnlyTightensExactly(w: World, r: Row)
    requires r.user != ""
    ensures (forall ps :: AllAccepted(w, r, ps) ==> Tightened(r, AfterAll(r, ps))) <==> Sound(r) || Closed(r)
  {
    if Sound(r) || Closed(r) {
      forall ps | AllAccepted(w, r, ps) ensures Tightened(r, AfterAll(r, ps)) {
        if Sound(r) {
          SoundRunTightens(w, r, ps);
        } else {
          ClosedStays(w, r, ps);
          LimitsNeverRise(w, r, ps);
          OwnersKeep(w, r, ps);
        }
      }
    } else {
      var ps := UnsoundWidens(w, r);
    }
  }

  lemma {:induction false} OwnersKeep(w: World, r: Row, ps: seq<Patch>)
    requires AllAccepted(w, r, ps)
    ensures AfterAll(r, ps).group == r.group && AfterAll(r, ps).user == r.user
  {
    if ps != [] {
      OwnersKeep(w, r, ps[..|ps| - 1]);
    }
  }

  // ----- why the guard alone is not enough -----

  /** A list of blanks passes the guard on any readable row and would be stored as no
      list at all; only the check of the values refuses it. */
  lemma GuardAloneLetsBlanksThrough(w: World, r: Row)
    requires r.enabled && r.models.Json? && Trimmed(r.models.models) != []
    ensures var p := NoChange.(models := Some(["  "]));
      && GuardPasses(r, p)
      && Patched(r, p, false).models == Null
      && !FieldsValid(w, p)
  {
    var blanks := ["  "];
    assert Trim("  ") == "";
    assert blanks[..0] == [] && blanks[0] in blanks;
    assert Normalized(blanks) == [];
  }

  // ----- exactly which changes are accepted -----

  /** Every value sent makes sense by itself. */
  predicate Sensible(w: World, p: Patch) {
    && (p.name.Some? ==> Trim(p.name.value) != "")
    && (p.quota.Some? ==> p.quota.value >= 0) && (p.rpm.Some? ==> p.rpm.value >= 0)
    && (p.tpm.Some? ==> p.tpm.value >= 0) && (p.expires.Some? ==> p.expires.value >= 0)
    && (p.models.Some? ==> forall m :: m in p.models.value ==> Trim(m) != "" && Trim(m) in w.known)
    && (p.ips.Some? ==> !p.ips.value.Unreadable?)
  }

  /** A limit is kept; a negative one is left for the values to be refused. */
  predicate LimitNarrows(before: int, after: Option<int>) {
    after.Some? ==> after.value < 0 || LimitKept(before, after.value)
  }

  /** Every model named was granted before; on a row with a list, no list is no narrower. */
  ghost predicate ModelsNarrow(c: Column, ms: seq<string>) {
    (forall m :: AllowsModel(c, m)) || (ms != [] && forall m :: Names(ms, m) ==> AllowsModel(c, m))
  }

  /** Every prefix sent holds only addresses of one old prefix; a row without prefixes
      takes any, and text that cannot be read is left for the values to be refused. */
  ghost predicate AddressesNarrow(before: IpText, after: IpText) {
    match before
    case Unreadable => false
    case Blank => true
    case Listed(nets) =>
      after.Unreadable? || nets == []
      || (after.Listed? && after.nets != []
          && forall q :: q in after.nets ==>
               exists o :: o in nets && forall a :: ValidAddr(a) && Contains(q, a) ==> Contains(o, a))
  }

  ghost predicate Narrows(r: Row, p: Patch) {
    && (p.enabled == Some(true) ==> r.enabled)
    && LimitNarrows(r.quota, p.quota) && LimitNarrows(r.rpm, p.rpm) && LimitNarrows(r.tpm, p.tpm)
    && LimitNarrows(r.expires, p.expires)
    && (p.ips.Some? ==> AddressesNarrow(r.ips, p.ips.value))
    && (p.models.Some? ==> ModelsNarrow(r.models, p.models.value))
  }

  lemma ModelsNarrowExactly(c: Column, ms: seq<string>)
    ensures ModelsCanTighten(Decode(c), ms) <==> ModelsNarrow(c, ms)
  {
    var before := Decode(c);
    if before.None? {
      forall m ensures AllowsModel(c, m) {
        AllowsAsDecoded(c, m);
      }
    } else {
      forall m ensures m in before.value <==> AllowsModel(c, m) {
        AllowsAsDecoded(c, m);
        if c.Json? {
          TrimmedIsClean(c.models);
          CleanNames(before.value, m);
        }
      }
      AllowsAsDecoded(c, "");
      forall m ensures m in Normalized(ms) <==> Names(ms, m) {
        NormalizedNames(ms, m);
      }
    }
  }

  lemma CoveredExactly(nets: seq<Net>, q: Net)
    ensures Covered(nets, q) <==> exists o :: o in nets && forall a :: ValidAddr(a) && Contains(q, a) ==> Contains(o, a)
  {
    forall o | o in nets ensures Covers(o, q) <==> forall a :: ValidAddr(a) && Contains(q, a) ==> Contains(o, a) {
      CoversExactly(o, q);
      assert forall a :: Within(q, o, a) <==> (Contains(q, a) ==> Contains(o, a));
    }
  }

  lemma AddressesNarrowExactly(before: IpText, after: IpText)
    ensures !IpsWidened(before, after) <==> AddressesNarrow(before, after)
  {
    if before.Listed? && after.Listed? {
      forall q | q in after.nets
        ensures Covered(before.nets, q)
                <==> exists o :: o in before.nets && forall a :: ValidAddr(a) && Contains(q, a) ==> Contains(o, a)
      {
        CoveredExactly(before.nets, q);
      }
    }
  }

  lemma GuardExactly(r: Row, p: Patch)
    ensures GuardPasses(r, p) <==> Narrows(r, p)
  {
    if p.models.Some? {
      ModelsNarrowExactly(r.models, p.models.value);
    }
    if p.ips.Some? {
      AddressesNarrowExactly(r.ips, p.ips.value);
    }
  }

  /** The answer to the owner: what would widen is forbidden, then what makes no sense is
      bad, then a group is forbidden; everything else is done. */
  lemma OwnerVerdictExactly(w: World, r: Row, p: Patch)
    requires r.user != ""
    ensures Verdict(w, r, p, Some(Caller(r.user, false)))
            == if !Narrows(r, p) then Forbidden
               else if !Sensible(w, p) then BadRequest
               else if p.group.Some? then Forbidden
               else Done
  {
    GuardExactly(r, p);
  }

  /** The owner gets exactly the changes accepted that make sense, send no group and
      widen nothing. */
  lemma TighteningIsAccepted(w: World, r: Row, p: Patch)
    requires r.user != ""
    ensures AcceptedFromOwner(w, r, p) <==> Sensible(w, p) && p.group.None? && Narrows(r, p)
  {
    OwnerVerdictExactly(w, r, p);
  }

  /** An administrator is refused only for values, a group or a user that do not fit;
      strangers do not see the key. */
  lemma OtherVerdictsExactly(w: World, r: Row, p: Patch, id: string)
    requires id != ""
    ensures var user, group := p.user.GetOr(""), p.group.GetOr("");
      Verdict(w, r, p, Some(Caller(id, true)))
      == if Sensible(w, p) && (Trim(user) == "" || (Trim(user) in w.users && !w.users[Trim(user)]))
            && (Trim(group) == "" || Trim(group) in w.groups)
         then Done else BadRequest
    ensures r.user != id ==> Verdict(w, r, p, Some(Caller(id, false))) == NotFound
    ensures Verdict(w, r, p, None) == Unauthorized && Verdict(w, r, p, Some(Caller("", true))) == Unauthorized
  {
    assert Trim("") == "";
  }

  /** The row an accepted change leaves: what was sent, in its canonical form, and all
      else as it was; a corrupt model list counts as sent empty. */
  lemma ChangeLeaves(r: Row, p: Patch, admin: bool)
    requires p.ips.Some? ==> !p.ips.value.Unreadable?
    ensures var r' := Patched(r, p, admin);
      && (if p.name.Some? then r'.name == Trim(p.name.value) else r'.name == r.name)
      && r'.enabled == p.enabled.GetOr(r.enabled)
      && r'.quota == p.quota.GetOr(r.quota) && r'.rpm == p.rpm.GetOr(r.rpm) && r'.tpm == p.tpm.GetOr(r.tpm)
      && r'.expires == p.expires.GetOr(r.expires)
      && (if p.group.Some? then r'.group == Trim(p.group.value) else r'.group == r.group)
      && (if admin && p.user.Some? then r'.user == Trim(p.user.value) else r'.user == r.user)
      && r'.ips == (if p.ips.None? then r.ips else if p.ips.value == Listed([]) then Blank else p.ips.value)
  {
  }

  /** The models an accepted change grants: those named, all for the empty list, and
      without a list the same as before unless the old one was corrupt. */
  lemma ChangeGrants(w: World, r: Row, p: Patch, admin: bool, m: string)
    requires Sensible(w, p)
    ensures AllowsModel(Patched(r, p, admin).models, m)
            <==> if p.models.Some? then p.models.value == [] || Names(p.models.value, m)
                 else r.models.Corrupt? || AllowsModel(r.models, m)
  {
    var ms := ModelsPatched(Decode(r.models), p);
    EncodedGrants(ms, m);
    AllowsAsDecoded(r.models, m);
    if p.models.Some? && p.models.value != [] {
      var first := p.models.value[0];
      assert first in p.models.value;
      assert Names(p.models.value, Trim(first));
      NormalizedNames(p.models.value, Trim(first));
    } else if p.models.None? && r.models.Json? && ms.Some? {
      TrimmedIsClean(r.models.models);
      var first := ms.value[0];
      assert first in ms.value && Names(ms.value, first);
      NormalizedNames(ms.value, first);
    }
  }
}
