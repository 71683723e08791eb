/** The import as it runs: loops that fill the lookup tables and write the rows,
    inside one transaction, or count without writing. */
module ImportRun {
  import opened Import
  import opened Options
  import opened Text
  import Slugs

  /** The keys that bar an entry: those in the database and those of earlier entries. */
  function SeenKeys(idOf: map<string, Id>, have: set<Key>, ms: seq<ModelIn>, n: nat): set<Key>
    requires n <= |ms|
  {
    if n == 0 then have
    else SeenKeys(idOf, have, ms, n - 1) + (if Counted(idOf, ms[n - 1]) then {KeyOf(idOf, ms[n - 1])} else {})
  }

  lemma {:induction false} SeenKeysAre(idOf: map<string, Id>, have: set<Key>, ms: seq<ModelIn>, n: nat, k: Key)
    requires n <= |ms|
    ensures k in SeenKeys(idOf, have, ms, n)
            <==> k in have || exists j :: 0 <= j < n && Counted(idOf, ms[j]) && KeyOf(idOf, ms[j]) == k
  {
    if n > 0 {
      SeenKeysAre(idOf, have, ms, n - 1, k);
    }
  }

  lemma ModelIdsGrow(ms: seq<Model>, m: Model)
    ensures ModelIds(ms + [m]) == ModelIds(ms)[(m.provider, m.name) := m.id]
  {
    assert (ms + [m])[..|ms|] == ms;
  }

  /** One more entry, whether it becomes a model or not. */
  lemma AddedGrows(w: World, dry: bool, idOf: map<string, Id>, have: set<Key>, ms: seq<ModelIn>, n: nat)
    ensures var row := ModelAt(w, dry, idOf, have, ms, n);
      AddedModels(w, dry, idOf, have, ms, n + 1)
      == AddedModels(w, dry, idOf, have, ms, n) + (if row.Some? then [row.value] else [])
  {
  }

  lemma BadProtocolStays(ps: seq<ProviderIn>, i: nat)
    requires i <= |ps| && BadProtocol(ps[..i])
    ensures BadProtocol(ps)
  {
  }

  // ----- the hard writes of the first `n` entries land -----

  predicate GroupsLand(w: World, p: People, gs: seq<GroupIn>, n: nat)
    requires n <= |gs|
  {
    forall i {:trigger w.writes(Groups, i)} :: 0 <= i < n && GroupOk(AddGroups(w, p, gs, i), gs[i]) ==> w.writes(Groups, i)
  }

  predicate UsersLand(w: World, p: People, us: seq<UserIn>, n: nat)
    requires n <= |us|
  {
    forall i {:trigger w.writes(Users, i)} :: 0 <= i < n && UserOk(AddUsers(w, p, us, i), us[i]) ==> w.writes(Users, i)
  }

  predicate KeysLand(w: World, p: People, ks: seq<KeyIn>, n: nat)
    requires n <= |ks|
  {
    forall i {:trigger w.writes(Keys, i)} :: 0 <= i < n && KeyOk(w, AddKeys(w, p, ks, i), ks[i]) ==> w.writes(Keys, i)
  }

  predicate RoutesLand(w: World, l: Lookup, names: set<string>, rs: seq<RouteIn>, n: nat)
    requires n <= |rs|
  {
    n == 0 || (RoutesLand(w, l, names, rs, n - 1) && (RouteOk(AddRoutes(w, l, names, rs, n - 1).names, l, rs[n - 1]) ==> w.writes(Routes, n - 1)))
  }

  lemma {:induction false} LostRouteStays(w: World, l: Lookup, names: set<string>, rs: seq<RouteIn>, i: nat, n: nat)
    requires i <= n <= |rs| && !RoutesLand(w, l, names, rs, i)
    ensures !RoutesLand(w, l, names, rs, n)
  {
    if i < n {
      LostRouteStays(w, l, names, rs, i, n - 1);
    }
  }

  predicate PeopleLand(w: World, db: Database, f: File) {
    var groups := AddGroups(w, PeopleBefore(db), f.groups, |f.groups|);
    && GroupsLand(w, PeopleBefore(db), f.groups, |f.groups|)
    && UsersLand(w, groups, f.users, |f.users|)
    && KeysLand(w, AddUsers(w, groups, f.users, |f.users|), f.keys, |f.keys|)
  }

  /** Every write whose failure aborts a real run. */
  predicate HardWritesLand(w: World, db: Database, f: File) {
    && (forall i :: 0 <= i < |PlanOf(w, db, f).pending| ==> w.writes(Providers, i))
    && PeopleLand(w, db, f)
    && RoutesLand(w, LookupOf(w, db, f, false), set r | r in db.routes :: r.name, f.routes, |f.routes|)
  }

  lemma {:induction false} GroupsKeep(w: World, p: People, gs: seq<GroupIn>, n: nat)
    requires n <= |gs|
    ensures AddGroups(w, p, gs, n).users == p.users && AddGroups(w, p, gs, n).keys == p.keys
  {
    if n > 0 {
      GroupsKeep(w, p, gs, n - 1);
    }
  }

  lemma {:induction false} UsersKeep(w: World, p: People, us: seq<UserIn>, n: nat)
    requires n <= |us|
    ensures AddUsers(w, p, us, n).groups == p.groups && AddUsers(w, p, us, n).keys == p.keys
  {
    if n > 0 {
      UsersKeep(w, p, us, n - 1);
    }
  }

  lemma {:induction false} KeysKeep(w: World, p: People, ks: seq<KeyIn>, n: nat)
    requires n <= |ks|
    ensures AddKeys(w, p, ks, n).groups == p.groups && AddKeys(w, p, ks, n).users == p.users
  {
    if n > 0 {
      KeysKeep(w, p, ks, n - 1);
    }
  }

  lemma {:induction false} BrokenStays(l: Lookup, ts: seq<TargetIn>, n: nat)
    requires n <= |ts| && ResolveAll(l, ts[..n]).None?
    ensures ResolveAll(l, ts).None?
  {
    if n < |ts| {
      assert ts[..|ts| - 1][..n] == ts[..n];
      BrokenStays(l, ts[..|ts| - 1], n);
    } else {
      assert ts[..n] == ts;
    }
  }

  lemma RowsGrow(rows: seq<RouteRow>, row: RouteRow)
    ensures RouteRows(rows + [row]) == RouteRows(rows) + [row.route]
    ensures TargetRows(rows + [row]) == TargetRows(rows) + row.chain
  {
    assert (rows + [row])[..|rows|] == rows;
  }

  class Transfer {
    const w: World
    var db: Database

    constructor (w: World, db: Database)
      ensures this.w == w && this.db == db
    {
      this.w, this.db := w, db;
    }

    method PlanProviders(ps: seq<ProviderIn>) returns (plan: Option<Plan>)
      ensures plan == if BadProtocol(ps) then None else Some(PlanAll(w, TakenSlugs(db.providers), ps))
    {
      var p := Plan(TakenSlugs(db.providers), [], map[]);
      for i := 0 to |ps|
        invariant p == PlanAll(w, TakenSlugs(db.providers), ps[..i])
        invariant !BadProtocol(ps[..i])
      {
        PlanGrows(w, TakenSlugs(db.providers), ps, i);
        var bad;
        bad, p := PlanProvider(p, ps[i], i);
        if bad {
          BadProtocolStays(ps, i + 1);
          return None;
        }
      }
      assert ps[..|ps|] == ps;
      plan := Some(p);
    }

    /** One provider of the file: its name is taken before it is found unusable. */
    method PlanProvider(before: Plan, p: ProviderIn, i: nat) returns (bad: bool, plan: Plan)
      ensures bad <==> SlugOf(p) != "" && !p.protocolOk
      ensures !bad ==> plan == PlanOne(w, before, p, i)
    {
      plan, bad := before, false;
      var slug := if Trim(p.slug) == "" then Slugs.Slugified(p.name) else Trim(p.slug);
      if slug != "" {
        var target := slug;
        if slug in plan.taken {
          target := Slugs.UniqueSlug(plan.taken, slug);
          plan := plan.(renamed := plan.renamed[slug := target]);
        }
        plan := plan.(taken := plan.taken + {target});
        bad := !p.protocolOk;
        if !bad && Trim(p.endpoint) != "" && 0 <= p.timeoutMs <= MAX_DURATION_MILLIS && p.maxRetries >= 0 {
          plan := plan.(pending := plan.pending + [Pending(slug, Provider(w.NewId(Providers, i), target, Trim(p.endpoint)))]);
        }
      }
    }

    method CreateProviders(pending: seq<Pending>) returns (ok: bool, idOf: map<string, Id>)
      modifies this
      ensures ok <==> forall i :: 0 <= i < |pending| ==> w.writes(Providers, i)
      ensures ok ==> idOf == IdOf(false, SlugIds(old(db).providers), pending)
      ensures ok ==> db == old(db).(providers := old(db).providers + ProviderRows(pending))
    {
      idOf := SlugIds(db.providers);
      for i := 0 to |pending|
        invariant forall k :: 0 <= k < i ==> w.writes(Providers, k)
        invariant idOf == IdOf(false, SlugIds(old(db).providers), pending[..i])
        invariant db == old(db).(providers := old(db).providers + ProviderRows(pending[..i]))
      {
        assert pending[..i + 1][..i] == pending[..i];
        assert ProviderRows(pending[..i + 1]) == ProviderRows(pending[..i]) + [pending[i].provider];
        if !w.writes(Providers, i) {
          return false, idOf;
        }
        db := db.(providers := db.providers + [pending[i].provider]);
        idOf := idOf[pending[i].orig := pending[i].provider.id];
      }
      assert pending[..|pending|] == pending;
      ok := true;
    }

    ghost predicate ModelsWritten(db0: Database, dry: bool, added: seq<Model>, modelIds: map<Key, Id>)
      reads this`db
    {
      && db == db0.(models := db.models) && db.models == db0.models + (if dry then [] else added)
      && modelIds == ModelIds(db0.models + added)
    }

    method AttachModels(ms: seq<ModelIn>, idOf: map<string, Id>, dry: bool)
      returns (count: nat, skipped: nat, modelIds: map<Key, Id>)
      modifies this
      ensures var added := AddedModels(w, dry, idOf, KeysOf(old(db).models), ms, |ms|);
        count == |added| && count + skipped == |ms| && ModelsWritten(old(db), dry, added, modelIds)
    {
      ghost var added: seq<Model> := [];
      var existing := KeysOf(db.models);
      modelIds := ModelIds(db.models);
      count, skipped := 0, 0;
      assert db.models + [] == db.models;
      for i := 0 to |ms|
        invariant added == AddedModels(w, dry, idOf, KeysOf(old(db).models), ms, i)
        invariant existing == SeenKeys(idOf, KeysOf(old(db).models), ms, i)
        invariant count == |added| && count + skipped == i
        invariant ModelsWritten(old(db), dry, added, modelIds)
      {
        var created;
        created, existing, modelIds, added := AttachModel(ms, i, idOf, dry, existing, modelIds, old(db), added);
        if created {
          count := count + 1;
        } else {
          skipped := skipped + 1;
        }
      }
    }

    /** One entry of the file, after those before it. */
    method AttachModel(ms: seq<ModelIn>, i: nat, idOf: map<string, Id>, dry: bool, existing: set<Key>,
                       before: map<Key, Id>, ghost db0: Database, ghost added: seq<Model>)
      returns (created: bool, seen: set<Key>, modelIds: map<Key, Id>, ghost more: seq<Model>)
      requires i < |ms| && existing == SeenKeys(idOf, KeysOf(db0.models), ms, i)
      requires added == AddedModels(w, dry, idOf, KeysOf(db0.models), ms, i) && ModelsWritten(db0, dry, added, before)
      modifies this
      ensures seen == SeenKeys(idOf, KeysOf(db0.models), ms, i + 1)
      ensures more == AddedModels(w, dry, idOf, KeysOf(db0.models), ms, i + 1) && ModelsWritten(db0, dry, more, modelIds)
      ensures |more| == |added| + if created then 1 else 0
    {
      var key, row := Examine(ms, i, idOf, dry, KeysOf(db0.models), existing);
      AddedGrows(w, dry, idOf, KeysOf(db0.models), ms, i);
      seen := if key.Some? then existing + {key.value} else existing;
      created, modelIds, more := row.Some?, before, added;
      if created {
        modelIds := CreateModel(row.value, dry, before, db0, added);
        more := added + [row.value];
      }
    }

    /** A new model is found by later routes; only a real run writes it. */
    method CreateModel(row: Model, dry: bool, before: map<Key, Id>, ghost db0: Database, ghost added: seq<Model>)
      returns (modelIds: map<Key, Id>)
      requires ModelsWritten(db0, dry, added, before)
      modifies this
      ensures ModelsWritten(db0, dry, added + [row], modelIds)
    {
      ModelIdsGrow(db0.models + added, row);
      assert db0.models + (added + [row]) == db0.models + added + [row];
      modelIds := before[(row.provider, row.name) := row.id];
      if !dry {
        db := db.(models := db.models + [row]);
      }
    }

    /** One entry: the key it is entered under, and the model it becomes, if any. */
    method Examine(ms: seq<ModelIn>, i: nat, idOf: map<string, Id>, dry: bool, ghost have: set<Key>, existing: set<Key>)
      returns (key: Option<Key>, row: Option<Model>)
      requires i < |ms| && existing == SeenKeys(idOf, have, ms, i)
      ensures key == if Counted(idOf, ms[i]) then Some(KeyOf(idOf, ms[i])) else None
      ensures row == ModelAt(w, dry, idOf, have, ms, i)
    {
      var m := ms[i];
      var slug, name := Trim(m.slug), Trim(m.name);
      key, row := None, None;
      if slug in idOf {
        if name != "" {
          key := Some((idOf[slug], name));
          SeenKeysAre(idOf, have, ms, i, key.value);
          if key.value !in existing {
            if SoundModel(m) && (dry || w.writes(Models, i)) {
              row := Some(ModelRow(w, dry, key.value, i));
            }
          }
        }
      }
    }

    method AttachCredentials(cs: seq<CredentialIn>, idOf: map<string, Id>, dry: bool) returns (count: nat, skipped: nat)
      modifies this
      ensures var added := AddedCredentials(w, dry, idOf, cs, |cs|);
        && count == |added| && skipped == SkippedCredentials(w, dry, idOf, cs, |cs|)
        && db == old(db).(credentials := old(db).credentials + if dry then [] else added)
    {
      count, skipped := 0, 0;
      for i := 0 to |cs|
        invariant count == |AddedCredentials(w, dry, idOf, cs, i)| && skipped == SkippedCredentials(w, dry, idOf, cs, i)
        invariant db == old(db).(credentials := old(db).credentials + if dry then [] else AddedCredentials(w, dry, idOf, cs, i))
      {
        var c := cs[i];
        if Trim(c.slug) !in idOf || c.enabled.None? {
          skipped := skipped + 1;
        } else if Trim(c.apiKey) != "" {
          if !w.encrypts(Trim(c.apiKey)) || !(dry || w.writes(Credentials, i)) {
            skipped := skipped + 1;
          } else {
            count := count + 1;
            if !dry {
              db := db.(credentials := db.credentials
                        + [Credential(w.NewId(Credentials, i), idOf[Trim(c.slug)], Trim(c.title), c.enabled.value)]);
            }
          }
        }
      }
    }

    ghost predicate GroupsWritten(db0: Database, dry: bool, rows: seq<Group>)
      reads this`db
    {
      db == db0.(groups := db.groups) && db.groups == db0.groups + (if dry then [] else rows)
    }

    method ImportGroup(g: GroupIn, i: nat, before: People, dry: bool, ghost db0: Database) returns (ok: bool, p: People)
      requires GroupsWritten(db0, dry, before.groups)
      modifies this
      ensures ok <==> dry || (GroupOk(before, g) ==> w.writes(Groups, i))
      ensures ok ==> p == AddGroup(w, before, g, i) && GroupsWritten(db0, dry, p.groups)
    {
      p, ok := before, true;
      var name := Trim(g.name);
      if name != "" && name !in p.groupId {
        var row := Group(w.NewId(Groups, i), name);
        ok := dry || w.writes(Groups, i);
        if !dry && ok {
          db := db.(groups := db.groups + [row]);
        }
        p := p.(groupId := p.groupId[name := row.id], groups := p.groups + [row]);
      }
    }

    method ImportGroups(gs: seq<GroupIn>, before: People, dry: bool) returns (ok: bool, p: People)
      requires before.groups == []
      modifies this
      ensures ok <==> dry || GroupsLand(w, before, gs, |gs|)
      ensures ok ==> p == AddGroups(w, before, gs, |gs|) && GroupsWritten(old(db), dry, p.groups)
    {
      p, ok := before, true;
      var i := 0;
      while i < |gs| && ok
        invariant 0 <= i <= |gs|
        invariant ok ==> p == AddGroups(w, before, gs, i) && GroupsWritten(old(db), dry, p.groups)
        invariant ok <==> dry || GroupsLand(w, before, gs, i)
      {
        ok, p := ImportGroup(gs[i], i, p, dry, old(db));
        i := i + 1;
      }
    }

    ghost predicate UsersWritten(db0: Database, dry: bool, rows: seq<User>)
      reads this`db
    {
      db == db0.(users := db.users) && db.users == db0.users + (if dry then [] else rows)
    }

    method ImportUser(u: UserIn, i: nat, before: People, dry: bool, ghost db0: Database) returns (ok: bool, p: People)
      requires UsersWritten(db0, dry, before.users)
      modifies this
      ensures ok <==> dry || (UserOk(before, u) ==> w.writes(Users, i))
      ensures ok ==> p == AddUser(w, before, u, i) && UsersWritten(db0, dry, p.users)
    {
      p, ok := before, true;
      var name := CanonicalUsername(u.username);
      if name == "" || name in p.userId || u.quota < 0 {
        p := p.(usersSkipped := p.usersSkipped + 1);
      } else {
        var row := User(w.NewId(Users, i), name, Find(p.groupId, Trim(u.groupName)));
        ok := dry || w.writes(Users, i);
        if !dry && ok {
          db := db.(users := db.users + [row]);
        }
        p := p.(userId := p.userId[name := row.id], users := p.users + [row]);
      }
    }

    /** Where the loop over the users stands after the first `i`. */
    ghost predicate UsersSoFar(db0: Database, us: seq<UserIn>, i: nat, before: People, p: People, dry: bool)
      requires i <= |us|
      reads this`db
    {
      p == AddUsers(w, before, us, i) && UsersWritten(db0, dry, p.users) && (dry || UsersLand(w, before, us, i))
    }

    method NextUser(us: seq<UserIn>, i: nat, ghost before: People, p: People, dry: bool, ghost db0: Database)
      returns (ok: bool, p': People)
      requires i < |us| && UsersSoFar(db0, us, i, before, p, dry)
      modifies this
      ensures ok ==> UsersSoFar(db0, us, i + 1, before, p', dry)
      ensures !ok ==> !dry && !UsersLand(w, before, us, |us|)
    {
      ok, p' := ImportUser(us[i], i, p, dry, db0);
    }

    method ImportUsers(us: seq<UserIn>, before: People, dry: bool) returns (ok: bool, p: People)
      requires before.users == []
      modifies this
      ensures ok <==> dry || UsersLand(w, before, us, |us|)
      ensures ok ==> p == AddUsers(w, before, us, |us|) && UsersWritten(old(db), dry, p.users)
    {
      p, ok := before, true;
      var i := 0;
      while i < |us| && ok
        invariant 0 <= i <= |us|
        invariant ok ==> UsersSoFar(old(db), us, i, before, p, dry)
        invariant !ok ==> !dry && !UsersLand(w, before, us, |us|)
      {
        ok, p := NextUser(us, i, before, p, dry, old(db));
        i := i + 1;
      }
    }

    ghost predicate KeysWritten(db0: Database, dry: bool, rows: seq<AccessKey>)
      reads this`db
    {
      db == db0.(keys := db.keys) && db.keys == db0.keys + (if dry then [] else rows)
    }

    method ImportKey(k: KeyIn, i: nat, before: People, dry: bool, ghost db0: Database) returns (ok: bool, p: People)
      requires KeysWritten(db0, dry, before.keys)
      modifies this
      ensures ok <==> dry || (KeyOk(w, before, k) ==> w.writes(Keys, i))
      ensures ok ==> p == AddKey(w, before, k, i) && KeysWritten(db0, dry, p.keys)
    {
      p, ok := before, true;
      var plain, owner := Trim(k.plain), CanonicalUsername(k.user);
      var hash := w.hash(plain);
      if plain == "" || k.enabled.None? || hash in p.hashes || owner == "" || owner !in p.userId
         || (exists x :: x in k.limits && x < 0)
      {
        p := p.(keysSkipped := p.keysSkipped + 1);
      } else {
        var row := AccessKey(w.NewId(Keys, i), hash, p.userId[owner], Find(p.groupId, Trim(k.groupName)), k.enabled.value);
        ok := dry || w.writes(Keys, i);
        if !dry && ok {
          db := db.(keys := db.keys + [row]);
        }
        p := p.(hashes := p.hashes + {hash}, keys := p.keys + [row]);
      }
    }

    /** Where the loop over the keys stands after the first `i`. */
    ghost predicate KeysSoFar(db0: Database, ks: seq<KeyIn>, i: nat, before: People, p: People, dry: bool)
      requires i <= |ks|
      reads this`db
    {
      p == AddKeys(w, before, ks, i) && KeysWritten(db0, dry, p.keys) && (dry || KeysLand(w, before, ks, i))
    }

    method NextKey(ks: seq<KeyIn>, i: nat, ghost before: People, p: People, dry: bool, ghost db0: Database)
      returns (ok: bool, p': People)
      requires i < |ks| && KeysSoFar(db0, ks, i, before, p, dry)
      modifies this
      ensures ok ==> KeysSoFar(db0, ks, i + 1, before, p', dry)
      ensures !ok ==> !dry && !KeysLand(w, before, ks, |ks|)
    {
      ok, p' := ImportKey(ks[i], i, p, dry, db0);
    }

    method ImportKeys(ks: seq<KeyIn>, before: People, dry: bool) returns (ok: bool, p: People)
      requires before.keys == []
      modifies this
      ensures ok <==> dry || KeysLand(w, before, ks, |ks|)
      ensures ok ==> p == AddKeys(w, before, ks, |ks|) && KeysWritten(old(db), dry, p.keys)
    {
      p, ok := before, true;
      var i := 0;
      while i < |ks| && ok
        invariant 0 <= i <= |ks|
        invariant ok ==> KeysSoFar(old(db), ks, i, before, p, dry)
        invariant !ok ==> !dry && !KeysLand(w, before, ks, |ks|)
      {
        ok, p := NextKey(ks, i, before, p, dry, old(db));
        i := i + 1;
      }
    }

    /** Every target of one route, or nothing as soon as one is unknown. */
    method ResolveTargets(l: Lookup, ts: seq<TargetIn>) returns (r: Option<seq<Ref>>)
      ensures r == ResolveAll(l, ts)
    {
      var targets: seq<Ref> := [];
      for i := 0 to |ts|
        invariant ResolveAll(l, ts[..i]) == Some(targets)
      {
        assert ts[..i + 1][..i] == ts[..i];
        var one := Resolve(l, Trim(ts[i].slug), Trim(ts[i].name));
        if one.None? {
          BrokenStays(l, ts, i + 1);
          return None;
        }
        targets := targets + [one.value];
      }
      assert ts[..|ts|] == ts;
      r := Some(targets);
    }

    /** A route and its targets, in chain order. */
    method WriteRoute(row: RouteRow, ghost db0: Database, ghost rows: seq<RouteRow>)
      requires db.routes == db0.routes + RouteRows(rows) && db.targets == db0.targets + TargetRows(rows)
      modifies this
      ensures db == old(db).(routes := db.routes, targets := db.targets)
      ensures db.routes == db0.routes + RouteRows(rows + [row])
      ensures db.targets == db0.targets + TargetRows(rows + [row])
    {
      RowsGrow(rows, row);
      db := db.(routes := db.routes + [row.route], targets := db.targets + row.chain);
    }

    ghost predicate RoutesWritten(db0: Database, dry: bool, rows: seq<RouteRow>)
      reads this`db
    {
      && db == db0.(routes := db.routes, targets := db.targets)
      && db.routes == db0.routes + (if dry then [] else RouteRows(rows))
      && db.targets == db0.targets + (if dry then [] else TargetRows(rows))
    }

    method ImportRoute(r: RouteIn, i: nat, l: Lookup, st: RouteState, dry: bool, ghost db0: Database)
      returns (ok: bool, st': RouteState)
      requires RoutesWritten(db0, dry, st.rows)
      modifies this
      ensures ok <==> dry || (RouteOk(st.names, l, r) ==> w.writes(Routes, i))
      ensures ok ==> st' == AddRoute(w, l, st, r, i) && RoutesWritten(db0, dry, st'.rows)
    {
      var name := Trim(r.name);
      var chain := ResolveTargets(l, r.targets);
      st', ok := st, true;
      if name == "" || name in st.names || r.targets == [] || chain.None? {
        st' := st.(skipped := st.skipped + 1);
      } else {
        var row := RowOf(l, r, w.NewId(Routes, i));
        if dry {
          st' := RouteState(st.names + {name}, st.rows + [row], st.skipped);
        } else if w.writes(Routes, i) {
          WriteRoute(row, db0, st.rows);
          st' := RouteState(st.names + {name}, st.rows + [row], st.skipped);
        } else {
          ok := false;
        }
      }
    }

    /** Where the loop over the routes stands after the first `i`. */
    ghost predicate RoutesSoFar(db0: Database, rs: seq<RouteIn>, i: nat, l: Lookup, names: set<string>, st: RouteState, dry: bool)
      requires i <= |rs|
      reads this`db
    {
      && st == AddRoutes(w, l, names, rs, i)
      && RoutesWritten(db0, dry, st.rows)
      && (dry || RoutesLand(w, l, names, rs, i))
    }

    /** One route of the file, after those before it. */
    method NextRoute(rs: seq<RouteIn>, i: nat, l: Lookup, ghost names: set<string>, st: RouteState, dry: bool, ghost db0: Database)
      returns (ok: bool, st': RouteState)
      requires i < |rs| && RoutesSoFar(db0, rs, i, l, names, st, dry)
      modifies this
      ensures ok ==> RoutesSoFar(db0, rs, i + 1, l, names, st', dry)
      ensures !ok ==> !dry && !RoutesLand(w, l, names, rs, |rs|)
    {
      ok, st' := ImportRoute(rs[i], i, l, st, dry, db0);
      if !ok {
        LostRouteStays(w, l, names, rs, i + 1, |rs|);
      }
    }

    method ImportRoutes(rs: seq<RouteIn>, l: Lookup, names: set<string>, dry: bool) returns (ok: bool, st: RouteState)
      modifies this
      ensures ok <==> dry || RoutesLand(w, l, names, rs, |rs|)
      ensures ok ==> st == AddRoutes(w, l, names, rs, |rs|) && RoutesWritten(old(db), dry, st.rows)
    {
      st, ok := RouteState(names, [], 0), true;
      var i := 0;
      while i < |rs| && ok
        invariant 0 <= i <= |rs|
        invariant ok ==> RoutesSoFar(old(db), rs, i, l, names, st, dry)
        invariant !ok ==> !dry && !RoutesLand(w, l, names, rs, |rs|)
      {
        ok, st := NextRoute(rs, i, l, names, st, dry, old(db));
        i := i + 1;
      }
    }

    method ImportPeople(f: File, dry: bool) returns (ok: bool, p: People)
      modifies this
      ensures ok <==> dry || PeopleLand(w, old(db), f)
      ensures ok ==> p == PeopleAfter(w, old(db), f)
      ensures ok ==> db == old(db).(groups := old(db).groups + if dry then [] else p.groups,
                                    users := old(db).users + if dry then [] else p.users,
                                    keys := old(db).keys + if dry then [] else p.keys)
    {
      var start := PeopleBefore(db);
      GroupsKeep(w, start, f.groups, |f.groups|);
      ok, p := ImportGroups(f.groups, start, dry);
      if ok {
        UsersKeep(w, p, f.users, |f.users|);
        ok, p := ImportUsers(f.users, p, dry);
        if ok {
          KeysKeep(w, p, f.keys, |f.keys|);
          ok, p := ImportKeys(f.keys, p, dry);
        }
      }
    }

    method Attach(f: File, idOf: map<string, Id>, dry: bool) returns (a: Attached)
      modifies this
      ensures a == AttachedWith(w, old(db), f, idOf, dry)
      ensures var models := AddedModels(w, dry, idOf, KeysOf(old(db).models), f.models, |f.models|);
              var creds := AddedCredentials(w, dry, idOf, f.credentials, |f.credentials|);
        db == if dry then old(db)
              else old(db).(models := old(db).models + models, credentials := old(db).credentials + creds)
    {
      var models, modelsSkipped, modelIds := AttachModels(f.models, idOf, dry);
      var creds, credsSkipped := AttachCredentials(f.credentials, idOf, dry);
      a := Attached(models, modelsSkipped, creds, credsSkipped, modelIds);
    }

    method CreatePeopleAndRoutes(f: File, l: Lookup, dry: bool) returns (ok: bool, people: People, routes: RouteState)
      modifies this
      ensures var names := set r | r in old(db).routes :: r.name;
        && (ok <==> dry || (PeopleLand(w, old(db), f) && RoutesLand(w, l, names, f.routes, |f.routes|)))
        && (ok ==> people == PeopleAfter(w, old(db), f) && routes == AddRoutes(w, l, names, f.routes, |f.routes|))
      ensures ok ==>
        db == if dry then old(db)
              else old(db).(groups := old(db).groups + people.groups, users := old(db).users + people.users,
                            keys := old(db).keys + people.keys, routes := old(db).routes + RouteRows(routes.rows),
                            targets := old(db).targets + TargetRows(routes.rows))
    {
      var names := set r | r in db.routes :: r.name;
      ok, people := ImportPeople(f, dry);
      if ok {
        ok, routes := ImportRoutes(f.routes, l, names, dry);
      } else {
        routes := RouteState({}, [], 0);
      }
    }

    /** Everything after the plan, without writing. */
    method RunDry(f: File, plan: Plan) returns (r: Report)
      requires plan == PlanOf(w, db, f)
      modifies this
      ensures r == ReportOf(w, old(db), f, true) && db == old(db)
    {
      var existing, placeholder := SlugIds(db.providers), FileIds(true, map[], plan.pending);
      var a := Attach(f, placeholder, true);
      var _, people, routes := CreatePeopleAndRoutes(f, Lookup(placeholder, existing, a.modelIds), true);
      r := ReportFrom(plan, a, people, routes);
    }

    /** Everything after the plan; None when a hard write fails. */
    method RunReal(f: File, plan: Plan) returns (r: Option<Report>)
      requires plan == PlanOf(w, db, f)
      modifies this
      ensures r.Some? <==> HardWritesLand(w, old(db), f)
      ensures r.Some? ==> r.value == ReportOf(w, old(db), f, false) && db == Merged(w, old(db), f)
    {
      var existing := SlugIds(db.providers);
      var ok, idOf := CreateProviders(plan.pending);
      r := None;
      if ok {
        var a := Attach(f, idOf, false);
        var people, routes;
        ok, people, routes := CreatePeopleAndRoutes(f, Lookup(idOf, existing, a.modelIds), false);
        if ok {
          r := Some(ReportFrom(plan, a, people, routes));
        }
      }
    }

    /** The whole import. A file with a bad protocol changes nothing, nor does a dry
        run, nor a real run that a hard write failure interrupts. */
    method Apply(f: File, dry: bool) returns (r: Option<Report>)
      modifies this
      ensures r.Some? <==> !BadProtocol(f.providers) && (dry || HardWritesLand(w, old(db), f))
      ensures r.Some? ==> r.value == ReportOf(w, old(db), f, dry)
      ensures db == if r.Some? && !dry then Merged(w, old(db), f) else old(db)
    {
      var before := db;
      var plan := PlanProviders(f.providers);
      if plan.None? {
        return None;
      }
      if dry {
        var report := RunDry(f, plan.value);
        return Some(report);
      }
      r := RunReal(f, plan.value);
      if r.None? {
        db := before;
      }
    }
  }
}
