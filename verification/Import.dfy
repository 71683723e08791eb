/** What importing a configuration file computes: which rows each section of the file
    turns into, and what the report counts. A dry run computes the same from
    placeholder identities. */
module Import {
  import opened Lists
  import opened Options
  import opened Text
  import Effort
  import Slugs

  /** A stored identity, or one that stands in for a row that is not written. */
  datatype Id = Stored(n: nat) | DryRun(slug: string) | DryRunModel(provider: Id, name: string)

  /** Models are told apart within their provider. */
  type Key = (Id, string)

  // ----- the tables -----

  datatype Provider = Provider(id: Id, slug: string, endpoint: string)
  datatype Model = Model(id: Id, provider: Id, name: string)
  datatype Credential = Credential(id: Id, provider: Id, title: string, enabled: bool)
  datatype Group = Group(id: Id, name: string)
  datatype User = User(id: Id, username: string, group: Option<Id>)
  datatype AccessKey = AccessKey(id: Id, hash: string, owner: Id, group: Option<Id>, enabled: bool)
  datatype Route = Route(id: Id, name: string, provider: Id, model: Id)
  datatype Target = Target(route: Id, provider: Id, model: Id, position: nat, enabled: bool)

  datatype Database = Database(
    providers: seq<Provider>,
    models: seq<Model>,
    credentials: seq<Credential>,
    groups: seq<Group>,
    users: seq<User>,
    keys: seq<AccessKey>,
    routes: seq<Route>,
    targets: seq<Target>)

  // ----- the file -----

  datatype ProviderIn = ProviderIn(slug: string, name: string, protocolOk: bool, endpoint: string, timeoutMs: int, maxRetries: int)
  /** `levels` is what Effort.Parsed makes of the effort list, None when it is blank. */
  datatype ModelIn = ModelIn(slug: string, name: string, numbers: seq<real>, levels: Option<Effort.Levels>)
  datatype CredentialIn = CredentialIn(slug: string, title: string, enabled: Option<bool>, apiKey: string)
  datatype GroupIn = GroupIn(name: string)
  datatype UserIn = UserIn(username: string, quota: int, groupName: string)
  datatype KeyIn = KeyIn(plain: string, enabled: Option<bool>, user: string, limits: seq<int>, groupName: string)
  datatype TargetIn = TargetIn(slug: string, name: string, enabled: bool)
  datatype RouteIn = RouteIn(name: string, targets: seq<TargetIn>)

  datatype File = File(
    providers: seq<ProviderIn>,
    models: seq<ModelIn>,
    credentials: seq<CredentialIn>,
    groups: seq<GroupIn>,
    users: seq<UserIn>,
    keys: seq<KeyIn>,
    routes: seq<RouteIn>)

  // ----- what is not computed here -----

  datatype Section = Providers | Models | Credentials | Groups | Users | Keys | Routes

  /** The digest, the cipher, which store writes succeed and which identities the
      generator hands out, by section and position in the file. */
  datatype World = World(
    hash: string -> string,
    encrypts: string -> bool,
    writes: (Section, nat) -> bool,
    ids: (Section, nat) -> nat) {
    function NewId(s: Section, i: nat): Id { Stored(ids(s, i)) }
  }

  predicate Lands(w: World, dry: bool, s: Section, i: nat) {
    dry || w.writes(s, i)
  }

  // ----- providers -----

  /** A provider to be created, with the slug the rest of the file calls it by. */
  datatype Pending = Pending(orig: string, provider: Provider)

  datatype Plan = Plan(taken: set<string>, pending: seq<Pending>, renamed: map<string, string>)

  function SlugOf(p: ProviderIn): string {
    if Trim(p.slug) == "" then Slugs.Slugified(p.name) else Trim(p.slug)
  }

  const MAX_DURATION_MILLIS := 86_400_000

  predicate Usable(p: ProviderIn) {
    Trim(p.endpoint) != "" && 0 <= p.timeoutMs <= MAX_DURATION_MILLIS && p.maxRetries >= 0
  }

  /** A provider takes its name, and may be renamed, before it is found unusable. */
  function PlanOne(w: World, plan: Plan, p: ProviderIn, i: nat): Plan {
    var slug := SlugOf(p);
    if slug == "" then plan
    else
      var target := Slugs.FreeSlug(plan.taken, slug);
      Plan(plan.taken + {target},
           if Usable(p) then plan.pending + [Pending(slug, Provider(w.NewId(Providers, i), target, Trim(p.endpoint)))]
           else plan.pending,
           if slug in plan.taken then plan.renamed[slug := target] else plan.renamed)
  }

  function PlanAll(w: World, taken: set<string>, ps: seq<ProviderIn>): Plan {
    if ps == [] then Plan(taken, [], map[])
    else PlanOne(w, PlanAll(w, taken, ps[..|ps| - 1]), ps[|ps| - 1], |ps| - 1)
  }

  predicate BadProtocol(ps: seq<ProviderIn>) {
    exists p :: p in ps && SlugOf(p) != "" && !p.protocolOk
  }

  lemma PlanGrows(w: World, taken: set<string>, ps: seq<ProviderIn>, i: nat)
    requires i < |ps|
    ensures PlanAll(w, taken, ps[..i + 1]) == PlanOne(w, PlanAll(w, taken, ps[..i]), ps[i], i)
    ensures BadProtocol(ps[..i + 1]) <==> BadProtocol(ps[..i]) || (SlugOf(ps[i]) != "" && !ps[i].protocolOk)
  {
    assert ps[..i + 1] == ps[..i] + [ps[i]];
    assert ps[..i + 1][..i] == ps[..i];
  }

  function SlugIds(ps: seq<Provider>): map<string, Id> {
    if ps == [] then map[] else SlugIds(ps[..|ps| - 1])[ps[|ps| - 1].slug := ps[|ps| - 1].id]
  }

  function TakenSlugs(ps: seq<Provider>): set<string> {
    set p | p in ps :: p.slug
  }

  function ProviderRows(pending: seq<Pending>): seq<Provider> {
    seq(|pending|, i requires 0 <= i < |pending| => pending[i].provider)
  }

  /** By the slug of the file; the last of two providers that share one wins. */
  function FileIds(dry: bool, base: map<string, Id>, pending: seq<Pending>): map<string, Id> {
    if pending == [] then base
    else
      var last := pending[|pending| - 1];
      FileIds(dry, base, pending[..|pending| - 1])[last.orig := if dry then DryRun(last.provider.slug) else last.provider.id]
  }

  /** The real run also knows every provider that was there before. */
  function IdOf(dry: bool, existing: map<string, Id>, pending: seq<Pending>): map<string, Id> {
    FileIds(dry, if dry then map[] else existing, pending)
  }

  // ----- models -----

  predicate SoundModel(m: ModelIn) {
    && (forall x :: x in m.numbers ==> x >= 0.0)
    && (m.levels.None? || m.levels.value.known != [])
  }

  /** Far enough to be looked up, and to bar later entries of the same key. */
  predicate Counted(idOf: map<string, Id>, m: ModelIn) {
    Trim(m.slug) in idOf && Trim(m.name) != ""
  }

  function KeyOf(idOf: map<string, Id>, m: ModelIn): Key
    requires Counted(idOf, m)
  {
    (idOf[Trim(m.slug)], Trim(m.name))
  }

  predicate FirstOfKey(idOf: map<string, Id>, ms: seq<ModelIn>, i: nat)
    requires i < |ms| && Counted(idOf, ms[i])
  {
    forall j :: 0 <= j < i && Counted(idOf, ms[j]) ==> KeyOf(idOf, ms[j]) != KeyOf(idOf, ms[i])
  }

  /** The entry becomes a model: its provider is known, its key is in neither the
      database nor an earlier entry, and its fields are sound. */
  predicate Creates(idOf: map<string, Id>, have: set<Key>, ms: seq<ModelIn>, i: nat)
    requires i < |ms|
  {
    Counted(idOf, ms[i]) && KeyOf(idOf, ms[i]) !in have && FirstOfKey(idOf, ms, i) && SoundModel(ms[i])
  }

  function KeysOf(ms: seq<Model>): set<Key> {
    set m | m in ms :: (m.provider, m.name)
  }

  function ModelRow(w: World, dry: bool, key: Key, i: nat): Model {
    Model(if dry then DryRunModel(key.0, key.1) else w.NewId(Models, i), key.0, key.1)
  }

  function ModelAt(w: World, dry: bool, idOf: map<string, Id>, have: set<Key>, ms: seq<ModelIn>, i: nat): Option<Model> {
    if i < |ms| && Creates(idOf, have, ms, i) && Lands(w, dry, Models, i)
    then Some(ModelRow(w, dry, KeyOf(idOf, ms[i]), i)) else None
  }

  /** The models the first `n` entries add. */
  function AddedModels(w: World, dry: bool, idOf: map<string, Id>, have: set<Key>, ms: seq<ModelIn>, n: nat): seq<Model> {
    Gather((i: nat) => ModelAt(w, dry, idOf, have, ms, i), n)
  }

  function ModelIds(ms: seq<Model>): map<Key, Id> {
    if ms == [] then map[]
    else
      var m := ms[|ms| - 1];
      ModelIds(ms[..|ms| - 1])[(m.provider, m.name) := m.id]
  }

  // ----- credentials -----

  datatype Fate = Created | Skipped | Ignored

  function CredentialFate(w: World, dry: bool, idOf: map<string, Id>, c: CredentialIn, i: nat): Fate {
    if Trim(c.slug) !in idOf || c.enabled.None? then Skipped
    else if Trim(c.apiKey) == "" then Ignored
    else if w.encrypts(Trim(c.apiKey)) && Lands(w, dry, Credentials, i) then Created
    else Skipped
  }

  function CredentialAt(w: World, dry: bool, idOf: map<string, Id>, cs: seq<CredentialIn>, i: nat): Option<Credential> {
    if i < |cs| && CredentialFate(w, dry, idOf, cs[i], i).Created?
    then Some(Credential(w.NewId(Credentials, i), idOf[Trim(cs[i].slug)], Trim(cs[i].title), cs[i].enabled.value))
    else None
  }

  function AddedCredentials(w: World, dry: bool, idOf: map<string, Id>, cs: seq<CredentialIn>, n: nat): seq<Credential> {
    Gather((i: nat) => CredentialAt(w, dry, idOf, cs, i), n)
  }

  predicate SkipsAt(w: World, dry: bool, idOf: map<string, Id>, cs: seq<CredentialIn>, i: nat) {
    i < |cs| && CredentialFate(w, dry, idOf, cs[i], i).Skipped?
  }

  function SkippedCredentials(w: World, dry: bool, idOf: map<string, Id>, cs: seq<CredentialIn>, n: nat): nat {
    Count((i: nat) => SkipsAt(w, dry, idOf, cs, i), n)
  }

  // ----- groups, users, keys -----

  function CanonicalUsername(s: string): string {
    var t := Trim(s);
    seq(|t|, i requires 0 <= i < |t| => if 'A' <= t[i] <= 'Z' then (t[i] as int + 32) as char else t[i])
  }

  function Find(m: map<string, Id>, name: string): Option<Id> {
    if name in m then Some(m[name]) else None
  }

  /** What the three sections know by name, what they add and what they count. */
  datatype People = People(
    groupId: map<string, Id>,
    userId: map<string, Id>,
    hashes: set<string>,
    groups: seq<Group>,
    users: seq<User>,
    keys: seq<AccessKey>,
    usersSkipped: nat,
    keysSkipped: nat)

  predicate GroupOk(p: People, g: GroupIn) {
    Trim(g.name) != "" && Trim(g.name) !in p.groupId
  }

  function AddGroup(w: World, p: People, g: GroupIn, i: nat): People {
    var name := Trim(g.name);
    if !GroupOk(p, g) then p
    else p.(groupId := p.groupId[name := w.NewId(Groups, i)], groups := p.groups + [Group(w.NewId(Groups, i), name)])
  }

  predicate UserOk(p: People, u: UserIn) {
    CanonicalUsername(u.username) != "" && CanonicalUsername(u.username) !in p.userId && u.quota >= 0
  }

  function AddUser(w: World, p: People, u: UserIn, i: nat): People {
    var name := CanonicalUsername(u.username);
    if !UserOk(p, u) then p.(usersSkipped := p.usersSkipped + 1)
    else p.(userId := p.userId[name := w.NewId(Users, i)],
            users := p.users + [User(w.NewId(Users, i), name, Find(p.groupId, Trim(u.groupName)))])
  }

  predicate KeyOk(w: World, p: People, k: KeyIn) {
    && Trim(k.plain) != "" && k.enabled.Some? && w.hash(Trim(k.plain)) !in p.hashes
    && CanonicalUsername(k.user) != "" && CanonicalUsername(k.user) in p.userId
    && forall x :: x in k.limits ==> x >= 0
  }

  function AddKey(w: World, p: People, k: KeyIn, i: nat): People {
    if !KeyOk(w, p, k) then p.(keysSkipped := p.keysSkipped + 1)
    else
      var h := w.hash(Trim(k.plain));
      p.(hashes := p.hashes + {h},
         keys := p.keys + [AccessKey(w.NewId(Keys, i), h, p.userId[CanonicalUsername(k.user)],
                                     Find(p.groupId, Trim(k.groupName)), k.enabled.value)])
  }

  function AddGroups(w: World, p: People, gs: seq<GroupIn>, n: nat): People
    requires n <= |gs|
  {
    if n == 0 then p else AddGroup(w, AddGroups(w, p, gs, n - 1), gs[n - 1], n - 1)
  }

  function AddUsers(w: World, p: People, us: seq<UserIn>, n: nat): People
    requires n <= |us|
  {
    if n == 0 then p else AddUser(w, AddUsers(w, p, us, n - 1), us[n - 1], n - 1)
  }

  function AddKeys(w: World, p: People, ks: seq<KeyIn>, n: nat): People
    requires n <= |ks|
  {
    if n == 0 then p else AddKey(w, AddKeys(w, p, ks, n - 1), ks[n - 1], n - 1)
  }

  function GroupIds(gs: seq<Group>): map<string, Id> {
    if gs == [] then map[] else GroupIds(gs[..|gs| - 1])[gs[|gs| - 1].name := gs[|gs| - 1].id]
  }

  function UserIds(us: seq<User>): map<string, Id> {
    if us == [] then map[]
    else UserIds(us[..|us| - 1])[CanonicalUsername(us[|us| - 1].username) := us[|us| - 1].id]
  }

  function PeopleBefore(db: Database): People {
    People(GroupIds(db.groups), UserIds(db.users), set k | k in db.keys :: k.hash, [], [], [], 0, 0)
  }

  function PeopleAfter(w: World, db: Database, f: File): People {
    AddKeys(w, AddUsers(w, AddGroups(w, PeopleBefore(db), f.groups, |f.groups|), f.users, |f.users|), f.keys, |f.keys|)
  }

  // ----- routes -----

  /** How a slug and a model name of the file become identities. */
  datatype Lookup = Lookup(idOf: map<string, Id>, existing: map<string, Id>, modelIds: map<Key, Id>)

  function ProviderOf(l: Lookup, slug: string): Option<Id> {
    if slug in l.idOf then Some(l.idOf[slug]) else Find(l.existing, slug)
  }

  function Resolve(l: Lookup, slug: string, name: string): Option<Ref> {
    var pid := ProviderOf(l, slug);
    if pid.Some? && (pid.value, name) in l.modelIds then Some(Ref(pid.value, l.modelIds[(pid.value, name)])) else None
  }

  /** A provider and one of its models, both by identity. */
  datatype Ref = Ref(provider: Id, model: Id)

  function ResolveAll(l: Lookup, ts: seq<TargetIn>): Option<seq<Ref>> {
    if ts == [] then Some([])
    else
      var before, last := ResolveAll(l, ts[..|ts| - 1]), Resolve(l, Trim(ts[|ts| - 1].slug), Trim(ts[|ts| - 1].name));
      if before.Some? && last.Some? then Some(before.value + [last.value]) else None
  }

  function Chain(route: Id, ks: seq<Ref>, ts: seq<TargetIn>): seq<Target>
    requires |ks| <= |ts|
  {
    seq(|ks|, i requires 0 <= i < |ks| => Target(route, ks[i].provider, ks[i].model, i, ts[i].enabled))
  }

  /** A route and its chain are written together. */
  datatype RouteRow = RouteRow(route: Route, chain: seq<Target>)

  datatype RouteState = RouteState(names: set<string>, rows: seq<RouteRow>, skipped: nat)

  predicate RouteOk(names: set<string>, l: Lookup, r: RouteIn) {
    Trim(r.name) != "" && Trim(r.name) !in names && r.targets != [] && ResolveAll(l, r.targets).Some?
  }

  lemma {:induction false} ResolveAllLength(l: Lookup, ts: seq<TargetIn>)
    ensures ResolveAll(l, ts).Some? ==> |ResolveAll(l, ts).value| == |ts|
  {
    if ts != [] {
      ResolveAllLength(l, ts[..|ts| - 1]);
    }
  }

  function RowOf(l: Lookup, r: RouteIn, id: Id): RouteRow
    requires r.targets != [] && ResolveAll(l, r.targets).Some?
  {
    ResolveAllLength(l, r.targets);
    var ks := ResolveAll(l, r.targets).value;
    RouteRow(Route(id, Trim(r.name), ks[0].provider, ks[0].model), Chain(id, ks, r.targets))
  }

  function AddRoute(w: World, l: Lookup, st: RouteState, r: RouteIn, i: nat): RouteState {
    if RouteOk(st.names, l, r)
    then RouteState(st.names + {Trim(r.name)}, st.rows + [RowOf(l, r, w.NewId(Routes, i))], st.skipped)
    else st.(skipped := st.skipped + 1)
  }

  function AddRoutes(w: World, l: Lookup, names: set<string>, rs: seq<RouteIn>, n: nat): RouteState
    requires n <= |rs|
  {
    if n == 0 then RouteState(names, [], 0) else AddRoute(w, l, AddRoutes(w, l, names, rs, n - 1), rs[n - 1], n - 1)
  }

  function RouteRows(rows: seq<RouteRow>): seq<Route> {
    seq(|rows|, i requires 0 <= i < |rows| => rows[i].route)
  }

  function TargetRows(rows: seq<RouteRow>): seq<Target> {
    if rows == [] then [] else TargetRows(rows[..|rows| - 1]) + rows[|rows| - 1].chain
  }

  // ----- the whole import -----

  datatype Report = Report(
    providers: nat,
    renamed: map<string, string>,
    models: nat,
    modelsSkipped: nat,
    credentials: nat,
    credentialsSkipped: nat,
    groups: nat,
    users: nat,
    usersSkipped: nat,
    keys: nat,
    keysSkipped: nat,
    routes: nat,
    routesSkipped: nat)

  function PlanOf(w: World, db: Database, f: File): Plan {
    PlanAll(w, TakenSlugs(db.providers), f.providers)
  }

  function IdsOf(w: World, db: Database, f: File, dry: bool): map<string, Id> {
    IdOf(dry, SlugIds(db.providers), PlanOf(w, db, f).pending)
  }

  function ModelsOf(w: World, db: Database, f: File, dry: bool): seq<Model> {
    AddedModels(w, dry, IdsOf(w, db, f, dry), KeysOf(db.models), f.models, |f.models|)
  }

  function LookupOf(w: World, db: Database, f: File, dry: bool): Lookup {
    Lookup(IdsOf(w, db, f, dry), SlugIds(db.providers), ModelIds(db.models + ModelsOf(w, db, f, dry)))
  }

  function RoutesOf(w: World, db: Database, f: File, dry: bool): RouteState {
    AddRoutes(w, LookupOf(w, db, f, dry), set r | r in db.routes :: r.name, f.routes, |f.routes|)
  }

  /** What attaching models and credentials counts, and where the models are. */
  datatype Attached = Attached(
    models: nat,
    modelsSkipped: nat,
    credentials: nat,
    credentialsSkipped: nat,
    modelIds: map<Key, Id>)

  function AttachedWith(w: World, db: Database, f: File, idOf: map<string, Id>, dry: bool): Attached {
    var models := AddedModels(w, dry, idOf, KeysOf(db.models), f.models, |f.models|);
    Attached(|models|, if |models| <= |f.models| then |f.models| - |models| else 0,
             |AddedCredentials(w, dry, idOf, f.credentials, |f.credentials|)|,
             SkippedCredentials(w, dry, idOf, f.credentials, |f.credentials|),
             ModelIds(db.models + models))
  }

  function ReportFrom(plan: Plan, a: Attached, people: People, routes: RouteState): Report {
    Report(|plan.pending|, plan.renamed, a.models, a.modelsSkipped, a.credentials, a.credentialsSkipped,
           |people.groups|, |people.users|, people.usersSkipped, |people.keys|, people.keysSkipped,
           |routes.rows|, routes.skipped)
  }

  function ReportOf(w: World, db: Database, f: File, dry: bool): Report {
    ReportFrom(PlanOf(w, db, f), AttachedWith(w, db, f, IdsOf(w, db, f, dry), dry), PeopleAfter(w, db, f),
               RoutesOf(w, db, f, dry))
  }

  function Merged(w: World, db: Database, f: File): Database {
    var people, routes := PeopleAfter(w, db, f), RoutesOf(w, db, f, false);
    Database(db.providers + ProviderRows(PlanOf(w, db, f).pending),
             db.models + ModelsOf(w, db, f, false),
             db.credentials + AddedCredentials(w, false, IdsOf(w, db, f, false), f.credentials, |f.credentials|),
             db.groups + people.groups,
             db.users + people.users,
             db.keys + people.keys,
             db.routes + RouteRows(routes.rows),
             db.targets + TargetRows(routes.rows))
  }
}
