/** Changing an access key. Its owner may tighten what the administrator set and
    nothing else; several checks share that duty. */
module KeyPatch {
  import opened Cidr
  import opened Options
  import opened Text

  // ----- the stored row -----

  /** The model column: absent, a list, or text that is not a list. */
  datatype Column = Null | Json(models: seq<string>) | Corrupt

  /** The address text as it parses. An empty list is text of separators only; the
      gateway itself never writes that, but an import copies text unread. */
  datatype IpText = Blank | Listed(nets: seq<Net>) | Unreadable

  datatype Row = Row(
    name: string,
    enabled: bool,
    quota: int,
    rpm: int,
    tpm: int,
    models: Column,
    expires: int,
    ips: IpText,
    group: string,
    user: string)

  /** Trimmed entries without the blank ones. */
  function Trimmed(ms: seq<string>): seq<string> {
    if ms == [] then []
    else
      var m := Trim(ms[|ms| - 1]);
      Trimmed(ms[..|ms| - 1]) + (if m == "" then [] else [m])
  }

  /** Trimmed entries, blanks and repetitions dropped; the order is not modelled. */
  function Normalized(ms: seq<string>): seq<string> {
    if ms == [] then []
    else
      var before, m := Normalized(ms[..|ms| - 1]), Trim(ms[|ms| - 1]);
      if m == "" || m in before then before else before + [m]
  }

  /** None grants every model; an empty list grants none. */
  function Decode(c: Column): Option<seq<string>> {
    match c
    case Null => None
    case Corrupt => Some([])
    case Json(ms) => if Trimmed(ms) == [] then None else Some(Trimmed(ms))
  }

  function Encode(ms: Option<seq<string>>): Column {
    if ms.None? || Normalized(ms.value) == [] then Null else Json(Normalized(ms.value))
  }

  function ParseNets(t: IpText): Option<seq<Net>> {
    match t
    case Blank => Some([])
    case Listed(nets) => Some(nets)
    case Unreadable => None
  }

  function FormatNets(nets: seq<Net>): IpText {
    if nets == [] then Blank else Listed(nets)
  }

  // ----- what a key permits -----

  predicate AllowsIp(t: IpText, a: Addr) {
    match t
    case Blank => true
    case Listed(nets) => AnyContains(nets, Unmapped(a))
    case Unreadable => false
  }

  predicate AllowsModel(c: Column, model: string) {
    Decode(c).None? || model in Normalized(Decode(c).value)
  }

  /** The key's own part of authentication and of the model check; the owner's state
      and the group's list are not touched by an owner's change. */
  predicate Admits(r: Row, now: int, a: Addr, model: string) {
    r.enabled && !(r.expires > 0 && now >= r.expires) && AllowsIp(r.ips, a) && AllowsModel(r.models, model)
  }

  // ----- the request -----

  datatype Caller = Caller(id: string, admin: bool)

  datatype Patch = Patch(
    name: Option<string>,
    enabled: Option<bool>,
    quota: Option<int>,
    rpm: Option<int>,
    tpm: Option<int>,
    models: Option<seq<string>>,
    user: Option<string>,
    expires: Option<int>,
    ips: Option<IpText>,
    group: Option<string>)

  /** What else is in the store: the public model names, the groups, and the users
      with whether they are administrators. */
  datatype World = World(known: set<string>, groups: set<string>, users: map<string, bool>)

  datatype Status = Done | Unauthorized | NotFound | Forbidden | BadRequest

  // ----- the guard -----

  /** 0 is unlimited; a negative value is left to the later checks. */
  predicate CanTighten(before: int, after: int) {
    after < 0 || before <= 0 || 0 < after <= before
  }

  predicate ModelsCanTighten(before: Option<seq<string>>, after: seq<string>) {
    before.None? || (after != [] && forall m :: m in Normalized(after) ==> m in before.value)
  }

  predicate IpsWidened(before: IpText, after: IpText) {
    if before.Unreadable? then true
    else if after.Unreadable? || ParseNets(before).value == [] then false
    else ParseNets(after).value == [] || !AllCovered(ParseNets(before).value, ParseNets(after).value)
  }

  predicate GuardPasses(r: Row, p: Patch) {
    && !(p.enabled == Some(true) && !r.enabled)
    && (p.quota.Some? ==> CanTighten(r.quota, p.quota.value))
    && (p.rpm.Some? ==> CanTighten(r.rpm, p.rpm.value))
    && (p.tpm.Some? ==> CanTighten(r.tpm, p.tpm.value))
    && (p.expires.Some? ==> CanTighten(r.expires, p.expires.value))
    && (p.ips.Some? ==> !IpsWidened(r.ips, p.ips.value))
    && (p.models.Some? ==> ModelsCanTighten(Decode(r.models), p.models.value))
  }

  // ----- the value checks -----

  predicate ModelsValid(known: set<string>, ms: seq<string>) {
    forall m :: m in ms ==> Trim(m) != "" && Trim(m) in known
  }

  predicate ClaimValid(w: World, p: Patch, admin: bool) {
    admin && p.user.Some? && Trim(p.user.value) != "" ==>
      Trim(p.user.value) in w.users && !w.users[Trim(p.user.value)]
  }

  predicate FieldsValid(w: World, p: Patch) {
    && (p.name.Some? ==> Trim(p.name.value) != "")
    && (p.quota.Some? ==> p.quota.value >= 0)
    && (p.rpm.Some? ==> p.rpm.value >= 0)
    && (p.tpm.Some? ==> p.tpm.value >= 0)
    && (p.models.Some? ==> ModelsValid(w.known, p.models.value))
  }

  predicate P2Valid(p: Patch) {
    (p.expires.Some? ==> p.expires.value >= 0) && (p.ips.Some? ==> !p.ips.value.Unreadable?)
  }

  predicate GroupValid(w: World, p: Patch) {
    p.group.Some? && Trim(p.group.value) != "" ==> Trim(p.group.value) in w.groups
  }

  /** The answer to a change, in the order of the checks. */
  function Verdict(w: World, r: Row, p: Patch, me: Option<Caller>): Status {
    if me.None? || me.value.id == "" then Unauthorized
    else
      var admin := me.value.admin;
      if !admin && r.user != me.value.id then NotFound
      else if !admin && !GuardPasses(r, p) then Forbidden
      else if !FieldsValid(w, p) || !ClaimValid(w, p, admin) || !P2Valid(p) then BadRequest
      else if p.group.Some? && !admin then Forbidden
      else if !GroupValid(w, p) then BadRequest
      else Done
  }

  /** The row an accepted change leaves. */
  function Patched(r: Row, p: Patch, admin: bool): Row {
    Row(if p.name.Some? then Trim(p.name.value) else r.name,
        p.enabled.GetOr(r.enabled),
        p.quota.GetOr(r.quota),
        p.rpm.GetOr(r.rpm),
        p.tpm.GetOr(r.tpm),
        Encode(ModelsPatched(Decode(r.models), p)),
        p.expires.GetOr(r.expires),
        if p.ips.Some? && !p.ips.value.Unreadable? then FormatNets(ParseNets(p.ips.value).value) else r.ips,
        if p.group.Some? then Trim(p.group.value) else r.group,
        if admin && p.user.Some? then Trim(p.user.value) else r.user)
  }

  /** The handler's working copy, with the column decoded. */
  datatype Draft = Draft(row: Row, models: Option<seq<string>>)

  class KeyHandler {
    const w: World
    var row: Row

    constructor (w: World, row: Row)
      ensures this.w == w && this.row == row
    {
      this.w, this.row := w, row;
    }

    method NormalizeModelNames(ms: seq<string>) returns (out: seq<string>)
      ensures out == Normalized(ms)
    {
      var seen: set<string> := {};
      out := [];
      for i := 0 to |ms|
        invariant out == Normalized(ms[..i])
        invariant forall m :: m in seen <==> m in out
      {
        assert ms[..i + 1][..i] == ms[..i];
        var m := Trim(ms[i]);
        if m != "" && m !in seen {
          seen := seen + {m};
          out := out + [m];
        }
      }
      assert ms[..|ms|] == ms;
    }

    method ModelAllowlistCanTighten(before: Option<seq<string>>, after: seq<string>) returns (ok: bool)
      ensures ok <==> ModelsCanTighten(before, after)
    {
      if before.None? {
        return true;
      }
      var current := set m | m in before.value;
      if after == [] {
        return false;
      }
      var names := NormalizeModelNames(after);
      for i := 0 to |names|
        invariant forall k :: 0 <= k < i ==> names[k] in before.value
      {
        if names[i] !in current {
          assert names[i] in names;
          return false;
        }
      }
      ok := true;
    }

    method IpAllowlistWidened(before: IpText, after: IpText) returns (widened: bool)
      ensures widened <==> IpsWidened(before, after)
    {
      var oldNets, newNets := ParseNets(before), ParseNets(after);
      if oldNets.None? {
        return true;
      }
      if newNets.None? || oldNets.value == [] {
        return false;
      }
      if newNets.value == [] {
        return true;
      }
      var before', after' := oldNets.value, newNets.value;
      for i := 0 to |after'|
        invariant forall k :: 0 <= k < i ==> Covered(before', after'[k])
      {
        var covered := false;
        for j := 0 to |before'|
          invariant !covered && forall k :: 0 <= k < j ==> !Covers(before'[k], after'[i])
        {
          if Covers(before'[j], after'[i]) {
            covered := true;
            break;
          }
        }
        if !covered {
          assert after'[i] in after';
          return true;
        }
      }
      widened := false;
    }

    method GuardNoLoosening(p: Patch, d: Draft) returns (ok: bool)
      requires d.models == Decode(d.row.models)
      ensures ok <==> GuardPasses(d.row, p)
    {
      if p.enabled == Some(true) && !d.row.enabled {
        return false;
      }
      if (p.quota.Some? && !CanTighten(d.row.quota, p.quota.value))
         || (p.rpm.Some? && !CanTighten(d.row.rpm, p.rpm.value))
         || (p.tpm.Some? && !CanTighten(d.row.tpm, p.tpm.value))
         || (p.expires.Some? && !CanTighten(d.row.expires, p.expires.value))
      {
        return false;
      }
      if p.ips.Some? {
        var widened := IpAllowlistWidened(d.row.ips, p.ips.value);
        if widened {
          return false;
        }
      }
      if p.models.Some? {
        ok := ModelAllowlistCanTighten(d.models, p.models.value);
        return;
      }
      ok := true;
    }

    /** Unknown names and blank entries are both refused. */
    method ValidateModelAllowlist(ms: seq<string>) returns (ok: bool)
      ensures ok <==> ModelsValid(w.known, ms)
    {
      var seen: set<string> := {};
      var unknown: seq<string>, blanks := [], false;
      for i := 0 to |ms|
        invariant blanks <==> exists k :: 0 <= k < i && Trim(ms[k]) == ""
        invariant forall m :: m in seen ==> m in w.known || m in unknown
        invariant forall m :: m in unknown ==> m !in w.known && exists k :: 0 <= k < i && Trim(ms[k]) == m
        invariant forall k :: 0 <= k < i && Trim(ms[k]) != "" ==> Trim(ms[k]) in seen
        invariant "" !in unknown
      {
        var m := Trim(ms[i]);
        if m == "" {
          blanks := true;
        } else if m !in seen {
          seen := seen + {m};
          if m !in w.known {
            unknown := unknown + [m];
          }
        }
      }
      ok := unknown == [] && !blanks;
      if unknown != [] {
        assert unknown[0] in unknown;
      }
    }

    /** Expiry, addresses and the group override. */
    method ApplyP2(p: Patch, d: Draft, admin: bool) returns (status: Status, d': Draft)
      ensures status == if !P2Valid(p) then BadRequest
                        else if p.group.Some? && !admin then Forbidden
                        else if !GroupValid(w, p) then BadRequest
                        else Done
      ensures status.Done? ==> d' == d.(row := d.row.(
        expires := p.expires.GetOr(d.row.expires),
        ips := if p.ips.Some? then FormatNets(ParseNets(p.ips.value).value) else d.row.ips,
        group := if p.group.Some? then Trim(p.group.value) else d.row.group))
    {
      d', status := d, Done;
      if p.expires.Some? {
        if p.expires.value < 0 {
          return BadRequest, d';
        }
        d' := d'.(row := d'.row.(expires := p.expires.value));
      }
      if p.ips.Some? {
        var nets := ParseNets(p.ips.value);
        if nets.None? {
          return BadRequest, d';
        }
        d' := d'.(row := d'.row.(ips := FormatNets(nets.value)));
      }
      if p.group.Some? {
        if !admin {
          return Forbidden, d';
        }
        var id := Trim(p.group.value);
        if id != "" && id !in w.groups {
          return BadRequest, d';
        }
        d' := d'.(row := d'.row.(group := id));
      }
    }

    /** Name, switch, limits and models; the values checks stop at the first failure. */
    method ApplyFields(p: Patch, d: Draft) returns (ok: bool, d': Draft)
      ensures ok <==> FieldsValid(w, p)
      ensures ok ==> d' == Draft(FieldsPatched(d.row, p), ModelsPatched(d.models, p))
    {
      d', ok := d, false;
      if p.name.Some? {
        var name := Trim(p.name.value);
        if name == "" {
          return;
        }
        d' := d'.(row := d'.row.(name := name));
      }
      if p.enabled.Some? {
        d' := d'.(row := d'.row.(enabled := p.enabled.value));
      }
      if p.quota.Some? {
        if p.quota.value < 0 {
          return;
        }
        d' := d'.(row := d'.row.(quota := p.quota.value));
      }
      if p.rpm.Some? {
        if p.rpm.value < 0 {
          return;
        }
        d' := d'.(row := d'.row.(rpm := p.rpm.value));
      }
      if p.tpm.Some? {
        if p.tpm.value < 0 {
          return;
        }
        d' := d'.(row := d'.row.(tpm := p.tpm.value));
      }
      if p.models.Some? {
        var valid := ValidateModelAllowlist(p.models.value);
        if !valid {
          return;
        }
        d' := d'.(models := if |p.models.value| == 0 then None else p.models);
      }
      ok := true;
    }

    /** One PATCH: everything is checked on a draft, and the row is written once. */
    method Update(me: Option<Caller>, p: Patch) returns (status: Status)
      modifies this
      ensures status == Verdict(w, old(row), p, me)
      ensures row == if status.Done? then Patched(old(row), p, me.value.admin) else old(row)
    {
      if me.None? || me.value.id == "" {
        return Unauthorized;
      }
      var admin := me.value.admin;
      if !admin && row.user != me.value.id {
        return NotFound;
      }
      var d := Draft(row, Decode(row.models));
      if !admin {
        var ok := GuardNoLoosening(p, d);
        if !ok {
          return Forbidden;
        }
      }
      var ok;
      ok, d := ApplyFields(p, d);
      if !ok {
        return BadRequest;
      }
      var claimTo, claim := "", false;
      if p.user.Some? && admin {
        claimTo, claim := Trim(p.user.value), true;
        if claimTo != "" && (claimTo !in w.users || w.users[claimTo]) {
          return BadRequest;
        }
      }
      status, d := ApplyP2(p, d, admin);
      if status.Done? {
        row := d.row.(models := Encode(d.models), user := if claim then claimTo else d.row.user);
      }
    }
  }

  function FieldsPatched(r: Row, p: Patch): Row {
    r.(name := if p.name.Some? then Trim(p.name.value) else r.name,
       enabled := p.enabled.GetOr(r.enabled), quota := p.quota.GetOr(r.quota),
       rpm := p.rpm.GetOr(r.rpm), tpm := p.tpm.GetOr(r.tpm))
  }

  function ModelsPatched(ms: Option<seq<string>>, p: Patch): Option<seq<string>> {
    if p.models.None? then ms else if p.models.value == [] then None else p.models
  }
}
