/** Which row each entry of the file becomes. Every table of the merged database is
    described entry by entry, from the file and the tables alone. */
module ImportRows {
  import opened Import
  import opened ImportLaws
  import opened ImportRun
  import opened Lists
  import opened Options
  import opened Text
  import Slugs

  // ----- looking names up in a table: the last row of that name counts -----

  function UserNamed(us: seq<User>, name: string): Option<Id> {
    if us == [] then None
    else if CanonicalUsername(us[|us| - 1].username) == name then Some(us[|us| - 1].id)
    else UserNamed(us[..|us| - 1], name)
  }

  function GroupNamed(gs: seq<Group>, name: string): Option<Id> {
    if gs == [] then None
    else if gs[|gs| - 1].name == name then Some(gs[|gs| - 1].id)
    else GroupNamed(gs[..|gs| - 1], name)
  }

  lemma {:induction false} UserNamedIs(us: seq<User>, name: string)
    ensures Find(UserIds(us), name) == UserNamed(us, name)
    ensures name in UserIds(us) <==> exists u :: u in us && CanonicalUsername(u.username) == name
  {
    if us != [] {
      UserNamedIs(us[..|us| - 1], name);
      assert us == us[..|us| - 1] + [us[|us| - 1]];
    }
  }

  lemma {:induction false} GroupNamedIs(gs: seq<Group>, name: string)
    ensures Find(GroupIds(gs), name) == GroupNamed(gs, name)
    ensures name in GroupIds(gs) <==> exists g :: g in gs && g.name == name
  {
    if gs != [] {
      GroupNamedIs(gs[..|gs| - 1], name);
      assert gs == gs[..|gs| - 1] + [gs[|gs| - 1]];
    }
  }

  lemma CanonicalStays(s: string)
    ensures CanonicalUsername(CanonicalUsername(s)) == CanonicalUsername(s)
  {
    var t, c := Trim(s), CanonicalUsername(s);
    TrimIsTight(s);
    assert Tight(c);
    TightIsTrimmed(c);
  }

  lemma UserAppended(us: seq<User>, u: User)
    ensures UserIds(us + [u]) == UserIds(us)[CanonicalUsername(u.username) := u.id]
  {
    assert (us + [u])[..|us|] == us;
  }

  lemma GroupAppended(gs: seq<Group>, g: Group)
    ensures GroupIds(gs + [g]) == GroupIds(gs)[g.name := g.id]
  {
    assert (gs + [g])[..|gs|] == gs;
  }

  // ----- groups -----

  /** The first entry of a name that no stored group has. */
  predicate GroupAdds(db: Database, gs: seq<GroupIn>, i: nat)
    requires i < |gs|
  {
    && Trim(gs[i].name) != ""
    && (forall g :: g in db.groups ==> g.name != Trim(gs[i].name))
    && (forall j :: 0 <= j < i ==> Trim(gs[j].name) != Trim(gs[i].name))
  }

  function GroupRowAt(w: World, db: Database, gs: seq<GroupIn>, i: nat): Option<Group> {
    if i < |gs| && GroupAdds(db, gs, i) then Some(Group(w.NewId(Groups, i), Trim(gs[i].name))) else None
  }

  function GroupRows(w: World, db: Database, gs: seq<GroupIn>, n: nat): seq<Group> {
    Gather((i: nat) => GroupRowAt(w, db, gs, i), n)
  }

  function GroupsSeen(db: Database, gs: seq<GroupIn>, n: nat): set<string>
    requires n <= |gs|
  {
    if n == 0 then GroupIds(db.groups).Keys
    else GroupsSeen(db, gs, n - 1) + (if Trim(gs[n - 1].name) == "" then {} else {Trim(gs[n - 1].name)})
  }

  lemma {:induction false} GroupSeenIs(db: Database, gs: seq<GroupIn>, n: nat, name: string)
    requires n <= |gs| && name != ""
    ensures name in GroupsSeen(db, gs, n) <==>
      (exists g :: g in db.groups && g.name == name) || exists j :: 0 <= j < n && Trim(gs[j].name) == name
  {
    if n == 0 {
      GroupNamedIs(db.groups, name);
    } else {
      GroupSeenIs(db, gs, n - 1, name);
    }
  }

  lemma GroupDecides(db: Database, p: People, gs: seq<GroupIn>, n: nat)
    requires n < |gs| && p.groupId.Keys == GroupsSeen(db, gs, n)
    ensures GroupOk(p, gs[n]) <==> GroupAdds(db, gs, n)
  {
    if Trim(gs[n].name) != "" {
      GroupSeenIs(db, gs, n, Trim(gs[n].name));
    }
  }

  /** What the first `n` entries have made of the people. */
  ghost predicate GroupsDone(w: World, db: Database, gs: seq<GroupIn>, n: nat)
    requires n <= |gs|
  {
    var p := AddGroups(w, PeopleBefore(db), gs, n);
    && p.groupId.Keys == GroupsSeen(db, gs, n) && p.groupId == GroupIds(db.groups + p.groups)
    && p.groups == GroupRows(w, db, gs, n)
    && p == PeopleBefore(db).(groupId := p.groupId, groups := p.groups)
  }

  lemma GroupStep(w: World, db: Database, gs: seq<GroupIn>, n: nat)
    requires n < |gs| && GroupsDone(w, db, gs, n)
    ensures GroupsDone(w, db, gs, n + 1)
  {
    var p := AddGroups(w, PeopleBefore(db), gs, n);
    GroupDecides(db, p, gs, n);
    if GroupOk(p, gs[n]) {
      var row := Group(w.NewId(Groups, n), Trim(gs[n].name));
      assert db.groups + (p.groups + [row]) == db.groups + p.groups + [row];
      GroupAppended(db.groups + p.groups, row);
    }
  }

  lemma {:induction false} GroupsAre(w: World, db: Database, gs: seq<GroupIn>, n: nat)
    requires n <= |gs|
    ensures GroupsDone(w, db, gs, n)
  {
    if n == 0 {
      assert db.groups + [] == db.groups;
    } else {
      GroupsAre(w, db, gs, n - 1);
      GroupStep(w, db, gs, n - 1);
    }
  }

  // ----- users -----

  predicate UserFits(u: UserIn) {
    CanonicalUsername(u.username) != "" && u.quota >= 0
  }

  /** The first sound entry of a name that no stored user has. */
  predicate UserAdds(db: Database, us: seq<UserIn>, i: nat)
    requires i < |us|
  {
    && UserFits(us[i])
    && (forall u :: u in db.users ==> CanonicalUsername(u.username) != CanonicalUsername(us[i].username))
    && (forall j :: 0 <= j < i && UserFits(us[j]) ==> CanonicalUsername(us[j].username) != CanonicalUsername(us[i].username))
  }

  /** With the group of the merged database that it names, if there is one. */
  function UserRowAt(w: World, db: Database, groups: seq<Group>, us: seq<UserIn>, i: nat): Option<User> {
    if i < |us| && UserAdds(db, us, i)
    then Some(User(w.NewId(Users, i), CanonicalUsername(us[i].username), GroupNamed(groups, Trim(us[i].groupName)))) else None
  }

  function UserRows(w: World, db: Database, groups: seq<Group>, us: seq<UserIn>, n: nat): seq<User> {
    Gather((i: nat) => UserRowAt(w, db, groups, us, i), n)
  }

  function UsersSeen(db: Database, us: seq<UserIn>, n: nat): set<string>
    requires n <= |us|
  {
    if n == 0 then UserIds(db.users).Keys
    else UsersSeen(db, us, n - 1) + (if UserFits(us[n - 1]) then {CanonicalUsername(us[n - 1].username)} else {})
  }

  lemma {:induction false} UserSeenIs(db: Database, us: seq<UserIn>, n: nat, name: string)
    requires n <= |us|
    ensures name in UsersSeen(db, us, n) <==>
      (exists u :: u in db.users && CanonicalUsername(u.username) == name)
      || exists j :: 0 <= j < n && UserFits(us[j]) && CanonicalUsername(us[j].username) == name
  {
    if n == 0 {
      UserNamedIs(db.users, name);
    } else {
      UserSeenIs(db, us, n - 1, name);
    }
  }

  lemma UserDecides(db: Database, p: People, us: seq<UserIn>, n: nat)
    requires n < |us| && p.userId.Keys == UsersSeen(db, us, n)
    ensures UserOk(p, us[n]) <==> UserAdds(db, us, n)
  {
    UserSeenIs(db, us, n, CanonicalUsername(us[n].username));
  }

  ghost predicate UsersDone(w: World, db: Database, groups: seq<Group>, p: People, us: seq<UserIn>, n: nat)
    requires n <= |us|
  {
    var p' := AddUsers(w, p, us, n);
    && p'.userId.Keys == UsersSeen(db, us, n) && p'.userId == UserIds(db.users + p'.users)
    && p'.users == UserRows(w, db, groups, us, n) && |p'.users| + p'.usersSkipped == n
    && p' == p.(userId := p'.userId, users := p'.users, usersSkipped := p'.usersSkipped)
  }

  lemma UserStep(w: World, db: Database, groups: seq<Group>, p: People, us: seq<UserIn>, n: nat)
    requires n < |us| && UsersDone(w, db, groups, p, us, n) && p.groupId == GroupIds(groups)
    ensures UsersDone(w, db, groups, p, us, n + 1)
  {
    var p' := AddUsers(w, p, us, n);
    UserDecides(db, p', us, n);
    if UserOk(p', us[n]) {
      CanonicalStays(us[n].username);
      GroupNamedIs(groups, Trim(us[n].groupName));
      var row := User(w.NewId(Users, n), CanonicalUsername(us[n].username), GroupNamed(groups, Trim(us[n].groupName)));
      assert db.users + (p'.users + [row]) == db.users + p'.users + [row];
      UserAppended(db.users + p'.users, row);
    }
  }

  lemma {:induction false} UsersAre(w: World, db: Database, groups: seq<Group>, p: People, us: seq<UserIn>, n: nat)
    requires n <= |us| && p.userId == UserIds(db.users) && p.users == [] && p.usersSkipped == 0
    requires p.groupId == GroupIds(groups)
    ensures UsersDone(w, db, groups, p, us, n)
  {
    if n == 0 {
      assert db.users + [] == db.users;
    } else {
      UsersAre(w, db, groups, p, us, n - 1);
      UserStep(w, db, groups, p, us, n - 1);
    }
  }

  // ----- keys -----

  /** A sound entry whose owner is a user of the merged database. */
  predicate KeyFits(users: seq<User>, k: KeyIn) {
    && Trim(k.plain) != "" && k.enabled.Some? && (forall x :: x in k.limits ==> x >= 0)
    && CanonicalUsername(k.user) != "" && UserNamed(users, CanonicalUsername(k.user)).Some?
  }

  /** The first such entry of a key that is not stored yet. */
  predicate KeyAdds(w: World, db: Database, users: seq<User>, ks: seq<KeyIn>, i: nat)
    requires i < |ks|
  {
    && KeyFits(users, ks[i])
    && (forall k :: k in db.keys ==> k.hash != w.hash(Trim(ks[i].plain)))
    && (forall j :: 0 <= j < i && KeyFits(users, ks[j]) ==> w.hash(Trim(ks[j].plain)) != w.hash(Trim(ks[i].plain)))
  }

  /** It keeps its own switch, and belongs to the user and the group it names. */
  function KeyRowAt(w: World, db: Database, groups: seq<Group>, users: seq<User>, ks: seq<KeyIn>, i: nat): Option<AccessKey> {
    if i < |ks| && KeyAdds(w, db, users, ks, i)
    then Some(AccessKey(w.NewId(Keys, i), w.hash(Trim(ks[i].plain)), UserNamed(users, CanonicalUsername(ks[i].user)).value,
                        GroupNamed(groups, Trim(ks[i].groupName)), ks[i].enabled.value))
    else None
  }

  function KeyRows(w: World, db: Database, groups: seq<Group>, users: seq<User>, ks: seq<KeyIn>, n: nat): seq<AccessKey> {
    Gather((i: nat) => KeyRowAt(w, db, groups, users, ks, i), n)
  }

  function HashesSeen(w: World, db: Database, users: seq<User>, ks: seq<KeyIn>, n: nat): set<string>
    requires n <= |ks|
  {
    if n == 0 then set k | k in db.keys :: k.hash
    else HashesSeen(w, db, users, ks, n - 1) + (if KeyFits(users, ks[n - 1]) then {w.hash(Trim(ks[n - 1].plain))} else {})
  }

  lemma {:induction false} HashSeenIs(w: World, db: Database, users: seq<User>, ks: seq<KeyIn>, n: nat, h: string)
    requires n <= |ks|
    ensures h in HashesSeen(w, db, users, ks, n) <==>
      (exists k :: k in db.keys && k.hash == h)
      || exists j :: 0 <= j < n && KeyFits(users, ks[j]) && w.hash(Trim(ks[j].plain)) == h
  {
    if n > 0 {
      HashSeenIs(w, db, users, ks, n - 1, h);
    }
  }

  lemma KeyDecides(w: World, db: Database, users: seq<User>, p: People, ks: seq<KeyIn>, n: nat)
    requires n < |ks| && p.hashes == HashesSeen(w, db, users, ks, n) && p.userId == UserIds(users)
    ensures KeyOk(w, p, ks[n]) <==> KeyAdds(w, db, users, ks, n)
    ensures KeyFits(users, ks[n]) && !KeyOk(w, p, ks[n]) ==> w.hash(Trim(ks[n].plain)) in p.hashes
  {
    UserNamedIs(users, CanonicalUsername(ks[n].user));
    HashSeenIs(w, db, users, ks, n, w.hash(Trim(ks[n].plain)));
  }

  ghost predicate KeysDone(w: World, db: Database, groups: seq<Group>, users: seq<User>, p: People, ks: seq<KeyIn>, n: nat)
    requires n <= |ks|
  {
    var p' := AddKeys(w, p, ks, n);
    && p'.hashes == HashesSeen(w, db, users, ks, n) && p'.keys == KeyRows(w, db, groups, users, ks, n)
    && |p'.keys| + p'.keysSkipped == n
    && p' == p.(hashes := p'.hashes, keys := p'.keys, keysSkipped := p'.keysSkipped)
  }

  lemma KeyStep(w: World, db: Database, groups: seq<Group>, users: seq<User>, p: People, ks: seq<KeyIn>, n: nat)
    requires n < |ks| && KeysDone(w, db, groups, users, p, ks, n)
    requires p.groupId == GroupIds(groups) && p.userId == UserIds(users)
    ensures KeysDone(w, db, groups, users, p, ks, n + 1)
  {
    KeyDecides(w, db, users, AddKeys(w, p, ks, n), ks, n);
    UserNamedIs(users, CanonicalUsername(ks[n].user));
    GroupNamedIs(groups, Trim(ks[n].groupName));
  }

  lemma {:induction false} KeysAre(w: World, db: Database, groups: seq<Group>, users: seq<User>, p: People, ks: seq<KeyIn>, n: nat)
    requires n <= |ks| && p.hashes == PeopleBefore(db).hashes && p.keys == [] && p.keysSkipped == 0
    requires p.groupId == GroupIds(groups) && p.userId == UserIds(users)
    ensures KeysDone(w, db, groups, users, p, ks, n)
  {
    if n > 0 {
      KeysAre(w, db, groups, users, p, ks, n - 1);
      KeyStep(w, db, groups, users, p, ks, n - 1);
    }
  }

  /** Groups, users and keys of the merged database, entry by entry, and what the
      report counts of them. */
  lemma PeopleFollowTheFile(w: World, db: Database, f: File)
    ensures var m, r := Merged(w, db, f), ReportOf(w, db, f, false);
      && m.groups == db.groups + GroupRows(w, db, f.groups, |f.groups|)
      && m.users == db.users + UserRows(w, db, m.groups, f.users, |f.users|)
      && m.keys == db.keys + KeyRows(w, db, m.groups, m.users, f.keys, |f.keys|)
      && r.groups == |m.groups| - |db.groups|
      && r.users == |m.users| - |db.users| && r.users + r.usersSkipped == |f.users|
      && r.keys == |m.keys| - |db.keys| && r.keys + r.keysSkipped == |f.keys|
  {
    var p1 := AddGroups(w, PeopleBefore(db), f.groups, |f.groups|);
    var p2 := AddUsers(w, p1, f.users, |f.users|);
    GroupsAre(w, db, f.groups, |f.groups|);
    UsersAre(w, db, db.groups + p1.groups, p1, f.users, |f.users|);
    KeysAre(w, db, db.groups + p1.groups, db.users + p2.users, p2, f.keys, |f.keys|);
  }

  // ----- providers -----

  /** The slug an entry asks for. */
  function SlugName(p: ProviderIn): string {
    if Trim(p.slug) != "" then Trim(p.slug) else Slugs.Slugified(p.name)
  }

  predicate ProviderFits(p: ProviderIn) {
    SlugName(p) != "" && Trim(p.endpoint) != "" && 0 <= p.timeoutMs <= 86_400_000 && p.maxRetries >= 0
  }

  /** Names in use before entry `n`; an unusable entry takes its name as well. */
  function TakenBefore(db: Database, ps: seq<ProviderIn>, n: nat): set<string>
    requires n <= |ps|
    decreases n, 0
  {
    if n == 0 then set p | p in db.providers :: p.slug
    else if SlugName(ps[n - 1]) == "" then TakenBefore(db, ps, n - 1)
    else TakenBefore(db, ps, n - 1) + {NameAt(db, ps, n - 1)}
  }

  /** The name entry `i` gets: its own, or the first free number of it. */
  function NameAt(db: Database, ps: seq<ProviderIn>, i: nat): string
    requires i < |ps|
    decreases i, 1
  {
    Slugs.FreeSlug(TakenBefore(db, ps, i), SlugName(ps[i]))
  }

  /** The names asked for that were in use, with what they became. */
  function RenamedBefore(db: Database, ps: seq<ProviderIn>, n: nat): map<string, string>
    requires n <= |ps|
  {
    if n == 0 then map[]
    else if SlugName(ps[n - 1]) != "" && SlugName(ps[n - 1]) in TakenBefore(db, ps, n - 1)
    then RenamedBefore(db, ps, n - 1)[SlugName(ps[n - 1]) := NameAt(db, ps, n - 1)]
    else RenamedBefore(db, ps, n - 1)
  }

  function ProviderRowAt(w: World, db: Database, ps: seq<ProviderIn>, i: nat): Option<Provider> {
    if i < |ps| && ProviderFits(ps[i])
    then Some(Provider(w.NewId(Providers, i), NameAt(db, ps, i), Trim(ps[i].endpoint))) else None
  }

  function ProviderEntries(w: World, db: Database, ps: seq<ProviderIn>, n: nat): seq<Provider> {
    Gather((i: nat) => ProviderRowAt(w, db, ps, i), n)
  }

  function StoredSlug(ps: seq<Provider>, slug: string): Option<Id> {
    if ps == [] then None
    else if ps[|ps| - 1].slug == slug then Some(ps[|ps| - 1].id)
    else StoredSlug(ps[..|ps| - 1], slug)
  }

  /** What the first `n` entries and the database make of a slug: the last usable entry
      that asks for it, or else the stored provider of that name. */
  function Home(w: World, db: Database, ps: seq<ProviderIn>, n: nat, slug: string): Option<Id>
    requires n <= |ps|
  {
    if n == 0 then StoredSlug(db.providers, slug)
    else if ProviderFits(ps[n - 1]) && SlugName(ps[n - 1]) == slug then Some(w.NewId(Providers, n - 1))
    else Home(w, db, ps, n - 1, slug)
  }

  lemma {:induction false} StoredSlugIs(ps: seq<Provider>, slug: string)
    ensures Find(SlugIds(ps), slug) == StoredSlug(ps, slug)
  {
    if ps != [] {
      StoredSlugIs(ps[..|ps| - 1], slug);
    }
  }

  ghost predicate PlanIs(w: World, db: Database, ps: seq<ProviderIn>, n: nat, plan: Plan)
    requires n <= |ps|
  {
    && plan.taken == TakenBefore(db, ps, n)
    && ProviderRows(plan.pending) == ProviderEntries(w, db, ps, n)
    && (forall slug :: Find(FileIds(false, SlugIds(db.providers), plan.pending), slug) == Home(w, db, ps, n, slug))
    && plan.renamed == RenamedBefore(db, ps, n)
  }

  lemma PendingAppended(base: map<string, Id>, pending: seq<Pending>, q: Pending)
    ensures ProviderRows(pending + [q]) == ProviderRows(pending) + [q.provider]
    ensures FileIds(false, base, pending + [q]) == FileIds(false, base, pending)[q.orig := q.provider.id]
  {
    assert (pending + [q])[..|pending|] == pending;
  }

  lemma HomeGrows(w: World, db: Database, ps: seq<ProviderIn>, n: nat, pending: seq<Pending>, q: Pending)
    requires n < |ps| && ProviderFits(ps[n]) && q.orig == SlugName(ps[n]) && q.provider.id == w.NewId(Providers, n)
    requires forall slug :: Find(FileIds(false, SlugIds(db.providers), pending), slug) == Home(w, db, ps, n, slug)
    ensures forall slug :: Find(FileIds(false, SlugIds(db.providers), pending + [q]), slug) == Home(w, db, ps, n + 1, slug)
  {
    PendingAppended(SlugIds(db.providers), pending, q);
  }

  lemma EntryStep(w: World, db: Database, ps: seq<ProviderIn>, n: nat, plan: Plan)
    requires n < |ps| && PlanIs(w, db, ps, n, plan)
    ensures var plan' := PlanOne(w, plan, ps[n], n);
      && plan'.taken == TakenBefore(db, ps, n + 1) && plan'.renamed == RenamedBefore(db, ps, n + 1)
      && plan'.pending == if ProviderFits(ps[n])
                          then plan.pending + [Pending(SlugName(ps[n]), ProviderRowAt(w, db, ps, n).value)] else plan.pending
  {
    assert SlugOf(ps[n]) == SlugName(ps[n]);
  }

  lemma PlanStep(w: World, db: Database, ps: seq<ProviderIn>, n: nat, plan: Plan)
    requires n < |ps| && PlanIs(w, db, ps, n, plan)
    ensures PlanIs(w, db, ps, n + 1, PlanOne(w, plan, ps[n], n))
  {
    EntryStep(w, db, ps, n, plan);
    if ProviderFits(ps[n]) {
      var q := Pending(SlugName(ps[n]), ProviderRowAt(w, db, ps, n).value);
      PendingAppended(SlugIds(db.providers), plan.pending, q);
      HomeGrows(w, db, ps, n, plan.pending, q);
    }
  }

  lemma {:induction false} PlanFollows(w: World, db: Database, ps: seq<ProviderIn>, n: nat)
    requires n <= |ps|
    ensures PlanIs(w, db, ps, n, PlanAll(w, TakenSlugs(db.providers), ps[..n]))
  {
    if n == 0 {
      forall slug ensures Find(SlugIds(db.providers), slug) == StoredSlug(db.providers, slug) {
        StoredSlugIs(db.providers, slug);
      }
    } else {
      PlanFollows(w, db, ps, n - 1);
      PlanGrows(w, TakenSlugs(db.providers), ps, n - 1);
      PlanStep(w, db, ps, n - 1, PlanAll(w, TakenSlugs(db.providers), ps[..n - 1]));
    }
  }

  lemma ProvidersFollowTheFile(w: World, db: Database, f: File)
    ensures var m, r := Merged(w, db, f), ReportOf(w, db, f, false);
      && m.providers == db.providers + ProviderEntries(w, db, f.providers, |f.providers|)
      && r.providers == |m.providers| - |db.providers|
      && r.renamed == RenamedBefore(db, f.providers, |f.providers|)
    ensures forall slug :: Find(IdsOf(w, db, f, false), slug) == Home(w, db, f.providers, |f.providers|, slug)
  {
    PlanFollows(w, db, f.providers, |f.providers|);
    assert f.providers[..|f.providers|] == f.providers;
  }

  // ----- models and credentials -----

  lemma {:induction false} GatherSame<T>(a: nat -> Option<T>, b: nat -> Option<T>, n: nat)
    requires forall i :: 0 <= i < n ==> a(i) == b(i)
    ensures Gather(a, n) == Gather(b, n)
  {
    if n > 0 {
      GatherSame(a, b, n - 1);
    }
  }

  /** Where the file's slugs lead, as a table. */
  ghost predicate LeadsHome(w: World, db: Database, ps: seq<ProviderIn>, m: map<string, Id>) {
    forall slug :: Find(m, slug) == Home(w, db, ps, |ps|, slug)
  }

  predicate ModelCounts(w: World, db: Database, ps: seq<ProviderIn>, m: ModelIn) {
    Home(w, db, ps, |ps|, Trim(m.slug)).Some? && Trim(m.name) != ""
  }

  function ModelKey(w: World, db: Database, ps: seq<ProviderIn>, m: ModelIn): Key
    requires ModelCounts(w, db, ps, m)
  {
    (Home(w, db, ps, |ps|, Trim(m.slug)).value, Trim(m.name))
  }

  /** The first entry of a model that its provider does not have, if its numbers and its
      effort levels are in order and the write lands. */
  predicate ModelAdds(w: World, db: Database, ps: seq<ProviderIn>, ms: seq<ModelIn>, i: nat)
    requires i < |ms|
  {
    && ModelCounts(w, db, ps, ms[i])
    && (forall m :: m in db.models ==> (m.provider, m.name) != ModelKey(w, db, ps, ms[i]))
    && (forall j :: 0 <= j < i && ModelCounts(w, db, ps, ms[j]) ==> ModelKey(w, db, ps, ms[j]) != ModelKey(w, db, ps, ms[i]))
    && (forall x :: x in ms[i].numbers ==> x >= 0.0)
    && (ms[i].levels.Some? ==> ms[i].levels.value.known != [])
    && w.writes(Models, i)
  }

  function ModelRowAt(w: World, db: Database, ps: seq<ProviderIn>, ms: seq<ModelIn>, i: nat): Option<Model> {
    if i < |ms| && ModelAdds(w, db, ps, ms, i)
    then Some(Model(w.NewId(Models, i), Home(w, db, ps, |ps|, Trim(ms[i].slug)).value, Trim(ms[i].name))) else None
  }

  function ModelEntries(w: World, db: Database, ps: seq<ProviderIn>, ms: seq<ModelIn>, n: nat): seq<Model> {
    Gather((i: nat) => ModelRowAt(w, db, ps, ms, i), n)
  }

  lemma CountsAlike(w: World, db: Database, ps: seq<ProviderIn>, ids: map<string, Id>, m: ModelIn)
    requires LeadsHome(w, db, ps, ids)
    ensures Counted(ids, m) <==> ModelCounts(w, db, ps, m)
    ensures Counted(ids, m) ==> KeyOf(ids, m) == ModelKey(w, db, ps, m)
  {
    assert Find(ids, Trim(m.slug)) == Home(w, db, ps, |ps|, Trim(m.slug));
  }

  lemma ModelAtIs(w: World, db: Database, ps: seq<ProviderIn>, ids: map<string, Id>, ms: seq<ModelIn>, i: nat)
    requires LeadsHome(w, db, ps, ids)
    ensures ModelAt(w, false, ids, KeysOf(db.models), ms, i) == ModelRowAt(w, db, ps, ms, i)
  {
    if i < |ms| {
      forall j | 0 <= j <= i
        ensures Counted(ids, ms[j]) <==> ModelCounts(w, db, ps, ms[j])
        ensures Counted(ids, ms[j]) ==> KeyOf(ids, ms[j]) == ModelKey(w, db, ps, ms[j])
      {
        CountsAlike(w, db, ps, ids, ms[j]);
      }
      if Counted(ids, ms[i]) {
        var key := KeyOf(ids, ms[i]);
        assert key in KeysOf(db.models) <==> exists m :: m in db.models && (m.provider, m.name) == key;
      }
    }
  }

  predicate CredentialAdds(w: World, db: Database, ps: seq<ProviderIn>, c: CredentialIn, i: nat) {
    && Home(w, db, ps, |ps|, Trim(c.slug)).Some? && c.enabled.Some?
    && Trim(c.apiKey) != "" && w.encrypts(Trim(c.apiKey)) && w.writes(Credentials, i)
  }

  /** It keeps its own switch. */
  function CredentialRowAt(w: World, db: Database, ps: seq<ProviderIn>, cs: seq<CredentialIn>, i: nat): Option<Credential> {
    if i < |cs| && CredentialAdds(w, db, ps, cs[i], i)
    then Some(Credential(w.NewId(Credentials, i), Home(w, db, ps, |ps|, Trim(cs[i].slug)).value, Trim(cs[i].title),
                         cs[i].enabled.value))
    else None
  }

  function CredentialEntries(w: World, db: Database, ps: seq<ProviderIn>, cs: seq<CredentialIn>, n: nat): seq<Credential> {
    Gather((i: nat) => CredentialRowAt(w, db, ps, cs, i), n)
  }

  /** Neither created nor without an API key of a known provider. */
  predicate CredentialSkips(w: World, db: Database, ps: seq<ProviderIn>, cs: seq<CredentialIn>, i: nat) {
    i < |cs| && !CredentialAdds(w, db, ps, cs[i], i)
    && !(Home(w, db, ps, |ps|, Trim(cs[i].slug)).Some? && cs[i].enabled.Some? && Trim(cs[i].apiKey) == "")
  }

  lemma CredentialAtIs(w: World, db: Database, ps: seq<ProviderIn>, ids: map<string, Id>, cs: seq<CredentialIn>, i: nat)
    requires LeadsHome(w, db, ps, ids)
    ensures CredentialAt(w, false, ids, cs, i) == CredentialRowAt(w, db, ps, cs, i)
    ensures SkipsAt(w, false, ids, cs, i) <==> CredentialSkips(w, db, ps, cs, i)
  {
    if i < |cs| {
      assert Find(ids, Trim(cs[i].slug)) == Home(w, db, ps, |ps|, Trim(cs[i].slug));
    }
  }

  /** Models and credentials of the merged database, entry by entry, and what the
      report counts of them. */
  lemma AttachmentsFollowTheFile(w: World, db: Database, f: File)
    ensures var m, r, ps := Merged(w, db, f), ReportOf(w, db, f, false), f.providers;
      && m.models == db.models + ModelEntries(w, db, ps, f.models, |f.models|)
      && m.credentials == db.credentials + CredentialEntries(w, db, ps, f.credentials, |f.credentials|)
      && r.models == |m.models| - |db.models| && r.models + r.modelsSkipped == |f.models|
      && r.credentials == |m.credentials| - |db.credentials|
      && r.credentialsSkipped == Count((i: nat) => CredentialSkips(w, db, ps, f.credentials, i), |f.credentials|)
  {
    var ps, ids := f.providers, IdsOf(w, db, f, false);
    ProvidersFollowTheFile(w, db, f);
    forall i: nat ensures ModelAt(w, false, ids, KeysOf(db.models), f.models, i) == ModelRowAt(w, db, ps, f.models, i) {
      ModelAtIs(w, db, ps, ids, f.models, i);
    }
    GatherSame((i: nat) => ModelAt(w, false, ids, KeysOf(db.models), f.models, i), (i: nat) => ModelRowAt(w, db, ps, f.models, i),
               |f.models|);
    forall i: nat
      ensures CredentialAt(w, false, ids, f.credentials, i) == CredentialRowAt(w, db, ps, f.credentials, i)
      ensures SkipsAt(w, false, ids, f.credentials, i) <==> CredentialSkips(w, db, ps, f.credentials, i)
    {
      CredentialAtIs(w, db, ps, ids, f.credentials, i);
    }
    GatherSame((i: nat) => CredentialAt(w, false, ids, f.credentials, i), (i: nat) => CredentialRowAt(w, db, ps, f.credentials, i),
               |f.credentials|);
    CountSame((i: nat) => SkipsAt(w, false, ids, f.credentials, i), (i: nat) => CredentialSkips(w, db, ps, f.credentials, i),
              |f.credentials|);
  }

  lemma {:induction false} CountSame(p: nat -> bool, q: nat -> bool, n: nat)
    requires forall i :: 0 <= i < n ==> (p(i) <==> q(i))
    ensures Count(p, n) == Count(q, n)
  {
    if n > 0 {
      CountSame(p, q, n - 1);
    }
  }

  // ----- routes -----

  function ModelNamed(ms: seq<Model>, provider: Id, name: string): Option<Id> {
    if ms == [] then None
    else if ms[|ms| - 1].provider == provider && ms[|ms| - 1].name == name then Some(ms[|ms| - 1].id)
    else ModelNamed(ms[..|ms| - 1], provider, name)
  }

  /** The provider a target names, and its model of that name in the merged database. */
  function RefAt(w: World, db: Database, ps: seq<ProviderIn>, ms: seq<Model>, t: TargetIn): Option<Ref> {
    var home := Home(w, db, ps, |ps|, Trim(t.slug));
    var model := if home.Some? then ModelNamed(ms, home.value, Trim(t.name)) else None;
    if model.Some? then Some(Ref(home.value, model.value)) else None
  }

  /** A named route with targets, every one of them known. */
  predicate RouteFits(w: World, db: Database, ps: seq<ProviderIn>, ms: seq<Model>, r: RouteIn) {
    && Trim(r.name) != "" && r.targets != []
    && forall t :: t in r.targets ==> RefAt(w, db, ps, ms, t).Some?
  }

  predicate RouteAdds(w: World, db: Database, ps: seq<ProviderIn>, ms: seq<Model>, rs: seq<RouteIn>, i: nat)
    requires i < |rs|
  {
    && RouteFits(w, db, ps, ms, rs[i])
    && (forall r :: r in db.routes ==> r.name != Trim(rs[i].name))
    && (forall j :: 0 <= j < i && RouteFits(w, db, ps, ms, rs[j]) ==> Trim(rs[j].name) != Trim(rs[i].name))
  }

  /** A route headed by its first target; each target keeps its place and its switch. */
  function RouteRowAt(w: World, db: Database, ps: seq<ProviderIn>, ms: seq<Model>, rs: seq<RouteIn>, i: nat): Option<RouteRow> {
    if i < |rs| && RouteAdds(w, db, ps, ms, rs, i) then
      var id, ts := w.NewId(Routes, i), rs[i].targets;
      var head := RefAt(w, db, ps, ms, ts[0]).value;
      Some(RouteRow(Route(id, Trim(rs[i].name), head.provider, head.model),
                    seq(|ts|, k requires 0 <= k < |ts| =>
                      var ref := RefAt(w, db, ps, ms, ts[k]).value;
                      Target(id, ref.provider, ref.model, k, ts[k].enabled))))
    else None
  }

  function RouteEntries(w: World, db: Database, ps: seq<ProviderIn>, ms: seq<Model>, rs: seq<RouteIn>, n: nat): seq<RouteRow> {
    Gather((i: nat) => RouteRowAt(w, db, ps, ms, rs, i), n)
  }

  lemma {:induction false} ModelNamedIs(ms: seq<Model>, provider: Id, name: string)
    ensures ModelNamed(ms, provider, name)
            == if (provider, name) in ModelIds(ms) then Some(ModelIds(ms)[(provider, name)]) else None
  {
    if ms != [] {
      ModelNamedIs(ms[..|ms| - 1], provider, name);
    }
  }

  lemma {:induction false} HomeCoversStored(w: World, db: Database, ps: seq<ProviderIn>, n: nat, slug: string)
    requires n <= |ps| && Home(w, db, ps, n, slug).None?
    ensures StoredSlug(db.providers, slug).None?
  {
    if n > 0 {
      HomeCoversStored(w, db, ps, n - 1, slug);
    }
  }

  ghost predicate LooksUp(w: World, db: Database, ps: seq<ProviderIn>, ms: seq<Model>, l: Lookup) {
    LeadsHome(w, db, ps, l.idOf) && l.existing == SlugIds(db.providers) && l.modelIds == ModelIds(ms)
  }

  lemma ResolveIs(w: World, db: Database, ps: seq<ProviderIn>, ms: seq<Model>, l: Lookup, t: TargetIn)
    requires LooksUp(w, db, ps, ms, l)
    ensures Resolve(l, Trim(t.slug), Trim(t.name)) == RefAt(w, db, ps, ms, t)
  {
    var slug := Trim(t.slug);
    var home := Home(w, db, ps, |ps|, slug);
    assert Find(l.idOf, slug) == home;
    StoredSlugIs(db.providers, slug);
    if home.None? {
      HomeCoversStored(w, db, ps, |ps|, slug);
    } else {
      ModelNamedIs(ms, home.value, Trim(t.name));
    }
  }

  lemma {:induction false} ResolvesIfAllDo(w: World, db: Database, ps: seq<ProviderIn>, ms: seq<Model>, l: Lookup, ts: seq<TargetIn>)
    requires LooksUp(w, db, ps, ms, l)
    ensures ResolveAll(l, ts).Some? <==> forall t :: t in ts ==> RefAt(w, db, ps, ms, t).Some?
  {
    if ts != [] {
      var before, last := ts[..|ts| - 1], ts[|ts| - 1];
      ResolvesIfAllDo(w, db, ps, ms, l, before);
      ResolveIs(w, db, ps, ms, l, last);
      assert ts == before + [last];
    }
  }

  lemma {:induction false} ResolvedAt(w: World, db: Database, ps: seq<ProviderIn>, ms: seq<Model>, l: Lookup, ts: seq<TargetIn>, k: nat)
    requires LooksUp(w, db, ps, ms, l) && ResolveAll(l, ts).Some? && k < |ts|
    ensures |ResolveAll(l, ts).value| == |ts| && Some(ResolveAll(l, ts).value[k]) == RefAt(w, db, ps, ms, ts[k])
  {
    ResolveAllLength(l, ts);
    ResolveAllLength(l, ts[..|ts| - 1]);
    if k < |ts| - 1 {
      ResolvedAt(w, db, ps, ms, l, ts[..|ts| - 1], k);
    } else {
      ResolveIs(w, db, ps, ms, l, ts[k]);
    }
  }

  function RoutesSeen(w: World, db: Database, ps: seq<ProviderIn>, ms: seq<Model>, rs: seq<RouteIn>, n: nat): set<string>
    requires n <= |rs|
  {
    if n == 0 then set r | r in db.routes :: r.name
    else RoutesSeen(w, db, ps, ms, rs, n - 1)
         + (if RouteFits(w, db, ps, ms, rs[n - 1]) then {Trim(rs[n - 1].name)} else {})
  }

  lemma {:induction false} RouteSeenIs(w: World, db: Database, ps: seq<ProviderIn>, ms: seq<Model>, rs: seq<RouteIn>, n: nat,
                                       name: string)
    requires n <= |rs|
    ensures name in RoutesSeen(w, db, ps, ms, rs, n) <==>
      (exists r :: r in db.routes && r.name == name)
      || exists j :: 0 <= j < n && RouteFits(w, db, ps, ms, rs[j]) && Trim(rs[j].name) == name
  {
    if n > 0 {
      RouteSeenIs(w, db, ps, ms, rs, n - 1, name);
    }
  }

  lemma RouteDecides(w: World, db: Database, ps: seq<ProviderIn>, ms: seq<Model>, l: Lookup, rs: seq<RouteIn>, n: nat,
                     names: set<string>)
    requires n < |rs| && LooksUp(w, db, ps, ms, l) && names == RoutesSeen(w, db, ps, ms, rs, n)
    ensures RouteOk(names, l, rs[n]) <==> RouteAdds(w, db, ps, ms, rs, n)
    ensures RouteFits(w, db, ps, ms, rs[n]) && !RouteOk(names, l, rs[n]) ==> Trim(rs[n].name) in names
  {
    ResolvesIfAllDo(w, db, ps, ms, l, rs[n].targets);
    RouteSeenIs(w, db, ps, ms, rs, n, Trim(rs[n].name));
  }

  lemma RowIs(w: World, db: Database, ps: seq<ProviderIn>, ms: seq<Model>, l: Lookup, rs: seq<RouteIn>, n: nat)
    requires n < |rs| && LooksUp(w, db, ps, ms, l) && RouteAdds(w, db, ps, ms, rs, n) && ResolveAll(l, rs[n].targets).Some?
    ensures RowOf(l, rs[n], w.NewId(Routes, n)) == RouteRowAt(w, db, ps, ms, rs, n).value
  {
    ResolveAllLength(l, rs[n].targets);
    ResolvedAt(w, db, ps, ms, l, rs[n].targets, 0);
    var a, b := RowOf(l, rs[n], w.NewId(Routes, n)), RouteRowAt(w, db, ps, ms, rs, n).value;
    assert |a.chain| == |b.chain|;
    forall k | 0 <= k < |a.chain| ensures a.chain[k] == b.chain[k] {
      ResolvedAt(w, db, ps, ms, l, rs[n].targets, k);
    }
  }

  ghost predicate RoutesDone(w: World, db: Database, ps: seq<ProviderIn>, ms: seq<Model>, l: Lookup, names: set<string>,
                             rs: seq<RouteIn>, n: nat)
    requires n <= |rs|
  {
    var st := AddRoutes(w, l, names, rs, n);
    && st.names == RoutesSeen(w, db, ps, ms, rs, n) && st.rows == RouteEntries(w, db, ps, ms, rs, n)
    && |st.rows| + st.skipped == n
  }

  lemma RouteStep(w: World, db: Database, ps: seq<ProviderIn>, ms: seq<Model>, l: Lookup, names: set<string>, rs: seq<RouteIn>, n: nat)
    requires n < |rs| && LooksUp(w, db, ps, ms, l) && RoutesDone(w, db, ps, ms, l, names, rs, n)
    ensures RoutesDone(w, db, ps, ms, l, names, rs, n + 1)
  {
    var st := AddRoutes(w, l, names, rs, n);
    RouteDecides(w, db, ps, ms, l, rs, n, st.names);
    if RouteOk(st.names, l, rs[n]) {
      RowIs(w, db, ps, ms, l, rs, n);
    }
  }

  lemma {:induction false} RoutesAre(w: World, db: Database, ps: seq<ProviderIn>, ms: seq<Model>, l: Lookup, names: set<string>,
                                     rs: seq<RouteIn>, n: nat)
    requires n <= |rs| && LooksUp(w, db, ps, ms, l) && names == set r | r in db.routes :: r.name
    ensures RoutesDone(w, db, ps, ms, l, names, rs, n)
  {
    if n > 0 {
      RoutesAre(w, db, ps, ms, l, names, rs, n - 1);
      RouteStep(w, db, ps, ms, l, names, rs, n - 1);
    }
  }

  /** Routes and targets of the merged database, entry by entry. */
  lemma RoutesFollowTheFile(w: World, db: Database, f: File)
    ensures var m, r := Merged(w, db, f), ReportOf(w, db, f, false);
            var rows := RouteEntries(w, db, f.providers, m.models, f.routes, |f.routes|);
      && m.routes == db.routes + seq(|rows|, i requires 0 <= i < |rows| => rows[i].route)
      && m.targets == db.targets + Chains(rows)
      && r.routes == |rows| && r.routes + r.routesSkipped == |f.routes|
  {
    ProvidersFollowTheFile(w, db, f);
    var m, l := Merged(w, db, f), LookupOf(w, db, f, false);
    RoutesAre(w, db, f.providers, m.models, l, set r | r in db.routes :: r.name, f.routes, |f.routes|);
    ChainsAre(RoutesOf(w, db, f, false).rows);
  }

  /** The chains of the routes, one after the other. */
  function Chains(rows: seq<RouteRow>): seq<Target> {
    if rows == [] then [] else rows[0].chain + Chains(rows[1..])
  }

  lemma {:induction false} ChainsJoin(rows: seq<RouteRow>, row: RouteRow)
    ensures Chains(rows + [row]) == Chains(rows) + row.chain
  {
    if rows == [] {
      assert [row][1..] == [] && row.chain + [] == row.chain;
    } else {
      assert (rows + [row])[1..] == rows[1..] + [row];
      ChainsJoin(rows[1..], row);
      assert rows[0].chain + (Chains(rows[1..]) + row.chain) == rows[0].chain + Chains(rows[1..]) + row.chain;
    }
  }

  lemma {:induction false} ChainsAre(rows: seq<RouteRow>)
    ensures TargetRows(rows) == Chains(rows)
  {
    if rows != [] {
      ChainsAre(rows[..|rows| - 1]);
      ChainsJoin(rows[..|rows| - 1], rows[|rows| - 1]);
      assert rows == rows[..|rows| - 1] + [rows[|rows| - 1]];
    }
  }

  // ----- when a real run is undone -----

  lemma GroupsLandExactly(w: World, db: Database, gs: seq<GroupIn>)
    ensures GroupsLand(w, PeopleBefore(db), gs, |gs|) <==> forall i :: 0 <= i < |gs| && GroupAdds(db, gs, i) ==> w.writes(Groups, i)
  {
    forall i | 0 <= i < |gs| ensures GroupOk(AddGroups(w, PeopleBefore(db), gs, i), gs[i]) <==> GroupAdds(db, gs, i) {
      GroupsAre(w, db, gs, i);
      GroupDecides(db, AddGroups(w, PeopleBefore(db), gs, i), gs, i);
    }
  }

  lemma UsersLandExactly(w: World, db: Database, groups: seq<Group>, p: People, us: seq<UserIn>)
    requires p.userId == UserIds(db.users) && p.users == [] && p.usersSkipped == 0 && p.groupId == GroupIds(groups)
    ensures UsersLand(w, p, us, |us|) <==> forall i :: 0 <= i < |us| && UserAdds(db, us, i) ==> w.writes(Users, i)
  {
    forall i | 0 <= i < |us| ensures UserOk(AddUsers(w, p, us, i), us[i]) <==> UserAdds(db, us, i) {
      UsersAre(w, db, groups, p, us, i);
      UserDecides(db, AddUsers(w, p, us, i), us, i);
    }
  }

  lemma KeysLandExactly(w: World, db: Database, groups: seq<Group>, users: seq<User>, p: People, ks: seq<KeyIn>)
    requires p.hashes == PeopleBefore(db).hashes && p.keys == [] && p.keysSkipped == 0
    requires p.groupId == GroupIds(groups) && p.userId == UserIds(users)
    ensures KeysLand(w, p, ks, |ks|) <==> forall i :: 0 <= i < |ks| && KeyAdds(w, db, users, ks, i) ==> w.writes(Keys, i)
  {
    forall i | 0 <= i < |ks| ensures KeyOk(w, AddKeys(w, p, ks, i), ks[i]) <==> KeyAdds(w, db, users, ks, i) {
      KeysAre(w, db, groups, users, p, ks, i);
      KeyDecides(w, db, users, AddKeys(w, p, ks, i), ks, i);
    }
  }

  lemma RouteOkAt(w: World, db: Database, ps: seq<ProviderIn>, ms: seq<Model>, l: Lookup, names: set<string>,
                  rs: seq<RouteIn>, n: nat)
    requires n < |rs| && LooksUp(w, db, ps, ms, l) && names == set r | r in db.routes :: r.name
    ensures RouteOk(AddRoutes(w, l, names, rs, n).names, l, rs[n]) <==> RouteAdds(w, db, ps, ms, rs, n)
  {
    RoutesAre(w, db, ps, ms, l, names, rs, n);
    RouteDecides(w, db, ps, ms, l, rs, n, AddRoutes(w, l, names, rs, n).names);
  }

  lemma {:induction false} RoutesLandEach(w: World, l: Lookup, names: set<string>, rs: seq<RouteIn>, n: nat)
    requires n <= |rs|
    ensures RoutesLand(w, l, names, rs, n)
            <==> forall i {:trigger w.writes(Routes, i)} :: 0 <= i < n && RouteOk(AddRoutes(w, l, names, rs, i).names, l, rs[i]) ==> w.writes(Routes, i)
  {
    if n > 0 {
      RoutesLandEach(w, l, names, rs, n - 1);
    }
  }

  lemma RoutesLandExactly(w: World, db: Database, ps: seq<ProviderIn>, ms: seq<Model>, l: Lookup, names: set<string>, rs: seq<RouteIn>)
    requires LooksUp(w, db, ps, ms, l) && names == set r | r in db.routes :: r.name
    ensures RoutesLand(w, l, names, rs, |rs|)
            <==> forall i :: 0 <= i < |rs| && RouteAdds(w, db, ps, ms, rs, i) ==> w.writes(Routes, i)
  {
    RoutesLandEach(w, l, names, rs, |rs|);
    forall i | 0 <= i < |rs| ensures RouteOk(AddRoutes(w, l, names, rs, i).names, l, rs[i]) <==> RouteAdds(w, db, ps, ms, rs, i) {
      RouteOkAt(w, db, ps, ms, l, names, rs, i);
    }
  }

  lemma PeopleLandExactly(w: World, db: Database, f: File)
    ensures PeopleLand(w, db, f) <==>
      && (forall i :: 0 <= i < |f.groups| && GroupAdds(db, f.groups, i) ==> w.writes(Groups, i))
      && (forall i :: 0 <= i < |f.users| && UserAdds(db, f.users, i) ==> w.writes(Users, i))
      && (forall i :: 0 <= i < |f.keys| && KeyAdds(w, db, Merged(w, db, f).users, f.keys, i) ==> w.writes(Keys, i))
  {
    var p1 := AddGroups(w, PeopleBefore(db), f.groups, |f.groups|);
    var p2 := AddUsers(w, p1, f.users, |f.users|);
    var groups, users := db.groups + p1.groups, db.users + p2.users;
    GroupsAre(w, db, f.groups, |f.groups|);
    UsersAre(w, db, groups, p1, f.users, |f.users|);
    KeysAre(w, db, groups, users, p2, f.keys, |f.keys|);
    GroupsLandExactly(w, db, f.groups);
    UsersLandExactly(w, db, groups, p1, f.users);
    KeysLandExactly(w, db, groups, users, p2, f.keys);
    assert Merged(w, db, f).users == users;
  }

  lemma RoutesLandWhere(w: World, db: Database, f: File)
    ensures RoutesLand(w, LookupOf(w, db, f, false), set r | r in db.routes :: r.name, f.routes, |f.routes|)
            <==> forall i :: 0 <= i < |f.routes| && RouteAdds(w, db, f.providers, Merged(w, db, f).models, f.routes, i)
                             ==> w.writes(Routes, i)
  {
    ProvidersFollowTheFile(w, db, f);
    RoutesLandExactly(w, db, f.providers, Merged(w, db, f).models, LookupOf(w, db, f, false),
                      set r | r in db.routes :: r.name, f.routes);
  }

  lemma PendingCount(w: World, db: Database, f: File)
    ensures |PlanOf(w, db, f).pending| == |ProviderEntries(w, db, f.providers, |f.providers|)|
  {
    PlanFollows(w, db, f.providers, |f.providers|);
    assert f.providers[..|f.providers|] == f.providers;
    assert |ProviderRows(PlanOf(w, db, f).pending)| == |PlanOf(w, db, f).pending|;
  }

  /** A real run is undone exactly if a write fails for an entry that becomes a provider,
      a group, a user, a key or a route; a model or a credential that fails is skipped. */
  lemma UndoneExactly(w: World, db: Database, f: File)
    ensures var m, added := Merged(w, db, f), |ProviderEntries(w, db, f.providers, |f.providers|)|;
      HardWritesLand(w, db, f) <==>
        && (forall i :: 0 <= i < added ==> w.writes(Providers, i))
        && (forall i :: 0 <= i < |f.groups| && GroupAdds(db, f.groups, i) ==> w.writes(Groups, i))
        && (forall i :: 0 <= i < |f.users| && UserAdds(db, f.users, i) ==> w.writes(Users, i))
        && (forall i :: 0 <= i < |f.keys| && KeyAdds(w, db, m.users, f.keys, i) ==> w.writes(Keys, i))
        && (forall i :: 0 <= i < |f.routes| && RouteAdds(w, db, f.providers, m.models, f.routes, i) ==> w.writes(Routes, i))
  {
    PendingCount(w, db, f);
    PeopleLandExactly(w, db, f);
    RoutesLandWhere(w, db, f);
  }

  /** A protocol nobody knows refuses the file, unless its provider has no name. */
  lemma RefusedExactly(ps: seq<ProviderIn>)
    ensures BadProtocol(ps) <==> exists p :: p in ps && SlugName(p) != "" && !p.protocolOk
  {
    if p :| p in ps && SlugName(p) != "" && !p.protocolOk {
      assert SlugOf(p) == SlugName(p);
    }
    if BadProtocol(ps) {
      var p :| p in ps && SlugOf(p) != "" && !p.protocolOk;
      assert SlugOf(p) == SlugName(p);
    }
  }
}
