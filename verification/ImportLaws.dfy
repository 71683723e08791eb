/** What the import promises: it only adds, models follow the provider of the file,
    and a dry run reports what the real run then does. */
module ImportLaws {
  import opened Import
  import opened Lists
  import opened Options
  import opened Text
  import Slugs

  // ----- databases and worlds the laws are about -----

  predicate DistinctProviders(ps: seq<Provider>) {
    forall i, j :: 0 <= i < j < |ps| ==> ps[i].slug != ps[j].slug && ps[i].id != ps[j].id
  }

  /** Slugs and identities are unique, stored identities are never placeholders, and
      the generator hands out identities that are new and pairwise distinct. */
  ghost predicate Sane(w: World, db: Database) {
    && DistinctProviders(db.providers)
    && (forall p :: p in db.providers ==> p.id.Stored?)
    && (forall m :: m in db.models ==> m.provider.Stored?)
    && (forall i: nat, j: nat :: i != j ==> w.ids(Providers, i) != w.ids(Providers, j))
    && (forall i: nat, p :: p in db.providers ==> p.id != w.NewId(Providers, i))
    && (forall i: nat, m :: m in db.models ==> m.provider != w.NewId(Providers, i))
  }

  ghost predicate AllWritesLand(w: World) {
    forall s, i :: w.writes(s, i)
  }

  // ----- the plan -----

  /** The identities come from distinct positions below `n`. */
  ghost predicate PlanOk(w: World, taken: set<string>, ps: seq<ProviderIn>, plan: Plan) {
    && taken <= plan.taken
    && (forall k :: 0 <= k < |plan.pending| ==> PendingOk(w, taken, ps, plan, plan.pending[k]))
    && (forall j, k :: 0 <= j < k < |plan.pending| ==>
          plan.pending[j].provider.slug != plan.pending[k].provider.slug
          && plan.pending[j].provider.id != plan.pending[k].provider.id)
  }

  ghost predicate PendingOk(w: World, taken: set<string>, ps: seq<ProviderIn>, plan: Plan, q: Pending) {
    && q.provider.slug in plan.taken && q.provider.slug !in taken
    && exists i :: 0 <= i < |ps| && q.provider.id == w.NewId(Providers, i) && Usable(ps[i]) && SlugOf(ps[i]) == q.orig
  }

  ghost predicate DistinctIds(w: World) {
    forall i: nat, j: nat :: i != j ==> w.ids(Providers, i) != w.ids(Providers, j)
  }

  lemma {:induction false} PlanIsOk(w: World, taken: set<string>, ps: seq<ProviderIn>)
    requires DistinctIds(w)
    ensures PlanOk(w, taken, ps, PlanAll(w, taken, ps))
  {
    if ps != [] {
      var n := |ps| - 1;
      var before, after := PlanAll(w, taken, ps[..n]), PlanAll(w, taken, ps);
      PlanIsOk(w, taken, ps[..n]);
      Slugs.FreeSlugIsFree(before.taken, SlugOf(ps[n]));
      forall k | 0 <= k < |before.pending| ensures PendingOk(w, taken, ps, after, before.pending[k]) {
        var q := before.pending[k];
        assert PendingOk(w, taken, ps[..n], before, q);
        var i :| 0 <= i < n && q.provider.id == w.NewId(Providers, i) && Usable(ps[..n][i]) && SlugOf(ps[..n][i]) == q.orig;
        assert ps[i] == ps[..n][i];
      }
      if |after.pending| > |before.pending| {
        var last := after.pending[|before.pending|];
        assert last.provider.id == w.NewId(Providers, n);
        assert PendingOk(w, taken, ps, after, last);
        forall j | 0 <= j < |before.pending|
          ensures before.pending[j].provider.slug != last.provider.slug && before.pending[j].provider.id != last.provider.id
        {
          assert PendingOk(w, taken, ps[..n], before, before.pending[j]);
        }
      }
    }
  }

  /** What a slug of the file stands for: the last provider accepted under it. */
  function LastOf(pending: seq<Pending>, slug: string): Option<Provider> {
    if pending == [] then None
    else if pending[|pending| - 1].orig == slug then Some(pending[|pending| - 1].provider)
    else LastOf(pending[..|pending| - 1], slug)
  }

  lemma {:induction false} LastOfIsPending(pending: seq<Pending>, slug: string)
    ensures LastOf(pending, slug).Some? ==>
      exists k :: 0 <= k < |pending| && pending[k] == Pending(slug, LastOf(pending, slug).value)
    ensures LastOf(pending, slug).None? ==> forall k :: 0 <= k < |pending| ==> pending[k].orig != slug
  {
    if pending != [] && pending[|pending| - 1].orig != slug {
      LastOfIsPending(pending[..|pending| - 1], slug);
      if LastOf(pending, slug).Some? {
        var k :| 0 <= k < |pending| - 1 && pending[..|pending| - 1][k] == Pending(slug, LastOf(pending, slug).value);
        assert pending[k] == Pending(slug, LastOf(pending, slug).value);
      }
    }
  }

  lemma {:induction false} FileIdsAre(dry: bool, base: map<string, Id>, pending: seq<Pending>, slug: string)
    ensures var m, last := FileIds(dry, base, pending), LastOf(pending, slug);
      && (slug in m <==> last.Some? || slug in base)
      && (last.Some? ==> m[slug] == if dry then DryRun(last.value.slug) else last.value.id)
      && (last.None? && slug in base ==> m[slug] == base[slug])
  {
    if pending != [] {
      FileIdsAre(dry, base, pending[..|pending| - 1], slug);
    }
  }

  lemma {:induction false} SlugIdsAre(ps: seq<Provider>, slug: string)
    requires DistinctProviders(ps)
    ensures slug in SlugIds(ps) <==> exists p :: p in ps && p.slug == slug
    ensures slug in SlugIds(ps) ==> exists p :: p in ps && p.slug == slug && p.id == SlugIds(ps)[slug]
  {
    if ps != [] {
      var n := |ps| - 1;
      SlugIdsAre(ps[..n], slug);
      assert ps == ps[..n] + [ps[n]];
    }
  }

  // ----- placeholders against generated identities -----

  /** The dry run's table `d` and the real run's `r` agree up to renaming: new
      identities are pairwise distinct and occur nowhere before, and whatever `r` has
      beyond `d` is an existing provider. */
  ghost predicate Twins(have: set<Key>, existing: map<string, Id>, d: map<string, Id>, r: map<string, Id>) {
    && (forall s :: s in r <==> s in d || s in existing)
    && (forall s :: s in r && s !in d ==> r[s] == existing[s])
    && (forall s, t :: s in d && t in d && s != t ==> d[s] != d[t] && r[s] != r[t])
    && (forall s, t :: s in d && t in existing ==> d[s] != existing[t] && r[s] != existing[t])
    && (forall s, t :: s in existing && t in existing && s != t ==> existing[s] != existing[t])
    && (forall s, k :: s in d && k in have ==> d[s] != k.0 && r[s] != k.0)
  }

  lemma {:induction false} SlugIdsDistinct(ps: seq<Provider>)
    requires DistinctProviders(ps)
    ensures forall s, t :: s in SlugIds(ps) && t in SlugIds(ps) && s != t ==> SlugIds(ps)[s] != SlugIds(ps)[t]
    ensures forall s :: s in SlugIds(ps) ==> exists p :: p in ps && p.id == SlugIds(ps)[s]
  {
    if ps != [] {
      SlugIdsDistinct(ps[..|ps| - 1]);
    }
  }

  lemma PendingFacts(w: World, db: Database, f: File, s: string)
    requires Sane(w, db) && LastOf(PlanOf(w, db, f).pending, s).Some?
    ensures var p := LastOf(PlanOf(w, db, f).pending, s).value;
      exists k, i :: 0 <= k < |PlanOf(w, db, f).pending| && PlanOf(w, db, f).pending[k] == Pending(s, p)
                     && 0 <= i < |f.providers| && p.id == w.NewId(Providers, i)
  {
    var plan := PlanOf(w, db, f);
    PlanIsOk(w, TakenSlugs(db.providers), f.providers);
    LastOfIsPending(plan.pending, s);
    var k :| 0 <= k < |plan.pending| && plan.pending[k] == Pending(s, LastOf(plan.pending, s).value);
    assert PendingOk(w, TakenSlugs(db.providers), f.providers, plan, plan.pending[k]);
  }

  lemma PendingDiffer(w: World, db: Database, f: File, j: nat, k: nat)
    requires Sane(w, db) && j != k && j < |PlanOf(w, db, f).pending| && k < |PlanOf(w, db, f).pending|
    ensures PlanOf(w, db, f).pending[j].provider.slug != PlanOf(w, db, f).pending[k].provider.slug
    ensures PlanOf(w, db, f).pending[j].provider.id != PlanOf(w, db, f).pending[k].provider.id
  {
    PlanIsOk(w, TakenSlugs(db.providers), f.providers);
    assert j < k || k < j;
  }

  lemma TwoPending(w: World, db: Database, f: File, s: string, t: string)
    requires Sane(w, db) && s != t
    requires LastOf(PlanOf(w, db, f).pending, s).Some? && LastOf(PlanOf(w, db, f).pending, t).Some?
    ensures var p, q := LastOf(PlanOf(w, db, f).pending, s).value, LastOf(PlanOf(w, db, f).pending, t).value;
      p.slug != q.slug && p.id != q.id
  {
    var plan := PlanOf(w, db, f);
    LastOfIsPending(plan.pending, s);
    LastOfIsPending(plan.pending, t);
    var j :| 0 <= j < |plan.pending| && plan.pending[j] == Pending(s, LastOf(plan.pending, s).value);
    var k :| 0 <= k < |plan.pending| && plan.pending[k] == Pending(t, LastOf(plan.pending, t).value);
    PendingDiffer(w, db, f, j, k);
  }

  lemma NewIdIsNew(w: World, db: Database, i: nat)
    requires Sane(w, db)
    ensures forall p :: p in db.providers ==> p.id != w.NewId(Providers, i)
    ensures forall k :: k in KeysOf(db.models) ==> k.0 != w.NewId(Providers, i)
  {
  }

  lemma IdsAreTwins(w: World, db: Database, f: File)
    requires Sane(w, db)
    ensures Twins(KeysOf(db.models), SlugIds(db.providers), IdsOf(w, db, f, true), IdsOf(w, db, f, false))
    ensures forall s :: s in IdsOf(w, db, f, true) <==> LastOf(PlanOf(w, db, f).pending, s).Some?
  {
    var have, existing, plan := KeysOf(db.models), SlugIds(db.providers), PlanOf(w, db, f);
    var d, r := IdsOf(w, db, f, true), IdsOf(w, db, f, false);
    SlugIdsDistinct(db.providers);
    forall s ensures s in r <==> s in d || s in existing
             ensures s in d <==> LastOf(plan.pending, s).Some?
             ensures s in r && s !in d ==> r[s] == existing[s]
    {
      FileIdsAre(true, map[], plan.pending, s);
      FileIdsAre(false, existing, plan.pending, s);
    }
    forall s, t | s in d && t in d && s != t ensures d[s] != d[t] && r[s] != r[t] {
      FileIdsAre(true, map[], plan.pending, s);
      FileIdsAre(true, map[], plan.pending, t);
      FileIdsAre(false, existing, plan.pending, s);
      FileIdsAre(false, existing, plan.pending, t);
      TwoPending(w, db, f, s, t);
    }
    forall s | s in d
      ensures (forall t :: t in existing ==> d[s] != existing[t] && r[s] != existing[t])
      ensures (forall k :: k in have ==> d[s] != k.0 && r[s] != k.0)
    {
      FileIdsAre(true, map[], plan.pending, s);
      FileIdsAre(false, existing, plan.pending, s);
      PendingFacts(w, db, f, s);
      var i: nat :| r[s] == w.NewId(Providers, i);
      NewIdIsNew(w, db, i);
    }
  }

  // ----- models under the two tables -----

  lemma CreatesAgree(have: set<Key>, existing: map<string, Id>, d: map<string, Id>, r: map<string, Id>,
                     ms: seq<ModelIn>, i: nat)
    requires Twins(have, existing, d, r) && i < |ms| && Trim(ms[i].slug) in d
    ensures Creates(d, have, ms, i) <==> Creates(r, have, ms, i)
  {
    if Trim(ms[i].name) != "" {
      forall j | 0 <= j < i && Counted(d, ms[j])
        ensures KeyOf(d, ms[j]) == KeyOf(d, ms[i]) <==> KeyOf(r, ms[j]) == KeyOf(r, ms[i])
      {
      }
      forall j | 0 <= j < i && Counted(r, ms[j]) && !Counted(d, ms[j]) ensures KeyOf(r, ms[j]) != KeyOf(r, ms[i]) {
      }
    }
  }

  /** A sound entry for a model that an existing provider lacks, when the file does not
      supply that provider itself; the first such entry for that model. */
  predicate StrayModel(supplied: set<string>, existing: map<string, Id>, have: set<Key>, ms: seq<ModelIn>, i: nat)
    requires i < |ms|
  {
    var slug, name := Trim(ms[i].slug), Trim(ms[i].name);
    && slug !in supplied && slug in existing && name != "" && SoundModel(ms[i])
    && (existing[slug], name) !in have
    && forall j :: 0 <= j < i ==> !(Trim(ms[j].slug) == slug && Trim(ms[j].name) == name)
  }

  lemma OnlyStraysDiffer(have: set<Key>, existing: map<string, Id>, d: map<string, Id>, r: map<string, Id>,
                         ms: seq<ModelIn>, i: nat)
    requires Twins(have, existing, d, r) && i < |ms| && Trim(ms[i].slug) !in d
    ensures !Creates(d, have, ms, i)
    ensures Creates(r, have, ms, i) <==> StrayModel(d.Keys, existing, have, ms, i)
  {
    if Counted(r, ms[i]) {
      forall j | 0 <= j < i && Counted(r, ms[j])
        ensures KeyOf(r, ms[j]) == KeyOf(r, ms[i])
                <==> Trim(ms[j].slug) == Trim(ms[i].slug) && Trim(ms[j].name) == Trim(ms[i].name)
      {
      }
      forall j | 0 <= j < i && Trim(ms[j].slug) == Trim(ms[i].slug) && Trim(ms[j].name) == Trim(ms[i].name)
        ensures Counted(r, ms[j])
      {
      }
    }
  }

  predicate StrayAt(supplied: set<string>, existing: map<string, Id>, have: set<Key>, ms: seq<ModelIn>, i: nat) {
    i < |ms| && StrayModel(supplied, existing, have, ms, i)
  }

  predicate NoStrayModel(supplied: set<string>, existing: map<string, Id>, have: set<Key>, ms: seq<ModelIn>) {
    forall i :: 0 <= i < |ms| ==> !StrayAt(supplied, existing, have, ms, i)
  }

  lemma ModelAtAgrees(w: World, have: set<Key>, existing: map<string, Id>, d: map<string, Id>, r: map<string, Id>,
                      ms: seq<ModelIn>, i: nat)
    requires Twins(have, existing, d, r) && AllWritesLand(w)
    ensures var p, q := ModelAt(w, true, d, have, ms, i), ModelAt(w, false, r, have, ms, i);
      if StrayAt(d.Keys, existing, have, ms, i) then p.None? && q.Some? else p.Some? <==> q.Some?
  {
    if i < |ms| {
      if Trim(ms[i].slug) in d {
        CreatesAgree(have, existing, d, r, ms, i);
      } else {
        OnlyStraysDiffer(have, existing, d, r, ms, i);
      }
    }
  }

  lemma ModelCounts(w: World, have: set<Key>, existing: map<string, Id>, d: map<string, Id>, r: map<string, Id>,
                    ms: seq<ModelIn>)
    requires Twins(have, existing, d, r) && AllWritesLand(w)
    ensures |AddedModels(w, true, d, have, ms, |ms|)| == |AddedModels(w, false, r, have, ms, |ms|)|
            <==> NoStrayModel(d.Keys, existing, have, ms)
  {
    var p, q := (i: nat) => ModelAt(w, true, d, have, ms, i), (i: nat) => ModelAt(w, false, r, have, ms, i);
    var stray := (i: nat) => StrayAt(d.Keys, existing, have, ms, i);
    forall i | 0 <= i < |ms| ensures if stray(i) then p(i).None? && q(i).Some? else p(i).Some? <==> q(i).Some? {
      ModelAtAgrees(w, have, existing, d, r, ms, i);
    }
    GatherCounts(p, q, stray, |ms|);
    CountZero(stray, |ms|);
    assert forall i :: 0 <= i < |ms| ==> (stray(i) <==> StrayAt(d.Keys, existing, have, ms, i));
  }

  predicate Enters(idOf: map<string, Id>, have: set<Key>, ms: seq<ModelIn>, i: nat, k: Key)
    requires i < |ms|
  {
    Creates(idOf, have, ms, i) && KeyOf(idOf, ms[i]) == k
  }

  lemma AddedKeys(w: World, dry: bool, idOf: map<string, Id>, have: set<Key>, ms: seq<ModelIn>, k: Key)
    requires AllWritesLand(w)
    ensures k in KeysOf(AddedModels(w, dry, idOf, have, ms, |ms|))
            <==> exists i :: 0 <= i < |ms| && Enters(idOf, have, ms, i, k)
  {
    var pick, added := (i: nat) => ModelAt(w, dry, idOf, have, ms, i), AddedModels(w, dry, idOf, have, ms, |ms|);
    if k in KeysOf(added) {
      var m :| m in added && k == (m.provider, m.name);
      GatherHas(pick, |ms|, m);
      var i :| 0 <= i < |ms| && pick(i) == Some(m);
      assert Enters(idOf, have, ms, i, k);
    }
    if exists i :: 0 <= i < |ms| && Enters(idOf, have, ms, i, k) {
      var i :| 0 <= i < |ms| && Enters(idOf, have, ms, i, k);
      var m := ModelRow(w, dry, k, i);
      assert pick(i) == Some(m);
      GatherHas(pick, |ms|, m);
      assert k == (m.provider, m.name);
    }
  }

  lemma KeysGrow(ms: seq<Model>, m: Model, k: Key)
    ensures k in KeysOf(ms + [m]) <==> k in KeysOf(ms) || k == (m.provider, m.name)
  {
    var both := ms + [m];
    if k in KeysOf(ms) {
      var x :| x in ms && k == (x.provider, x.name);
      assert x in both;
    }
    assert m in both;
  }

  lemma KeysJoin(a: seq<Model>, b: seq<Model>, k: Key)
    ensures k in KeysOf(a + b) <==> k in KeysOf(a) || k in KeysOf(b)
  {
    var both := a + b;
    forall x | x in a || x in b ensures x in both {
    }
  }

  lemma {:induction false} ModelIdsAre(ms: seq<Model>, k: Key)
    ensures k in ModelIds(ms) <==> k in KeysOf(ms)
    ensures k in ModelIds(ms) ==> exists m :: m in ms && (m.provider, m.name) == k && m.id == ModelIds(ms)[k]
  {
    if ms != [] {
      var n := |ms| - 1;
      ModelIdsAre(ms[..n], k);
      assert ms == ms[..n] + [ms[n]];
      KeysGrow(ms[..n], ms[n], k);
    }
  }

  // ----- credentials under the two tables -----

  /** A credential for an existing provider the file does not supply, which the real
      run stores or passes over in silence, while the dry run counts it as skipped. */
  predicate StrayCredential(w: World, supplied: set<string>, existing: map<string, Id>, c: CredentialIn) {
    && Trim(c.slug) !in supplied && Trim(c.slug) in existing && c.enabled.Some?
    && (Trim(c.apiKey) == "" || w.encrypts(Trim(c.apiKey)))
  }

  lemma FatesAgree(w: World, have: set<Key>, existing: map<string, Id>, d: map<string, Id>, r: map<string, Id>,
                   c: CredentialIn, i: nat)
    requires Twins(have, existing, d, r) && AllWritesLand(w)
    ensures if StrayCredential(w, d.Keys, existing, c)
            then CredentialFate(w, true, d, c, i).Skipped? && !CredentialFate(w, false, r, c, i).Skipped?
            else CredentialFate(w, true, d, c, i) == CredentialFate(w, false, r, c, i)
  {
  }

  predicate StrayCredentialAt(w: World, supplied: set<string>, existing: map<string, Id>, cs: seq<CredentialIn>, i: nat) {
    i < |cs| && StrayCredential(w, supplied, existing, cs[i])
  }

  predicate NoStrayCredential(w: World, supplied: set<string>, existing: map<string, Id>, cs: seq<CredentialIn>) {
    forall i :: 0 <= i < |cs| ==> !StrayCredentialAt(w, supplied, existing, cs, i)
  }

  lemma SkippedCounts(w: World, have: set<Key>, existing: map<string, Id>, d: map<string, Id>, r: map<string, Id>,
                      cs: seq<CredentialIn>)
    requires Twins(have, existing, d, r) && AllWritesLand(w)
    ensures SkippedCredentials(w, true, d, cs, |cs|) == SkippedCredentials(w, false, r, cs, |cs|)
            <==> NoStrayCredential(w, d.Keys, existing, cs)
  {
    var p, q := (i: nat) => SkipsAt(w, true, d, cs, i), (i: nat) => SkipsAt(w, false, r, cs, i);
    var stray := (i: nat) => StrayCredentialAt(w, d.Keys, existing, cs, i);
    forall i | 0 <= i < |cs| ensures if stray(i) then p(i) && !q(i) else p(i) <==> q(i) {
      FatesAgree(w, have, existing, d, r, cs[i], i);
    }
    CountsAdd(p, q, stray, |cs|);
    CountZero(stray, |cs|);
    assert forall i :: 0 <= i < |cs| ==> (stray(i) <==> StrayCredentialAt(w, d.Keys, existing, cs, i));
  }

  lemma CredentialCounts(w: World, have: set<Key>, existing: map<string, Id>, d: map<string, Id>, r: map<string, Id>,
                         cs: seq<CredentialIn>)
    requires Twins(have, existing, d, r) && AllWritesLand(w) && NoStrayCredential(w, d.Keys, existing, cs)
    ensures |AddedCredentials(w, true, d, cs, |cs|)| == |AddedCredentials(w, false, r, cs, |cs|)|
  {
    var p, q := (i: nat) => CredentialAt(w, true, d, cs, i), (i: nat) => CredentialAt(w, false, r, cs, i);
    forall i | 0 <= i < |cs| ensures p(i).Some? <==> q(i).Some? {
      assert !StrayCredentialAt(w, d.Keys, existing, cs, i);
      FatesAgree(w, have, existing, d, r, cs[i], i);
    }
    GatherCounts(p, q, (i: nat) => false, |cs|);
    CountZero((i: nat) => false, |cs|);
  }

  // ----- routes under the two tables -----

  lemma EntriesAgree(have: set<Key>, existing: map<string, Id>, d: map<string, Id>, r: map<string, Id>, ms: seq<ModelIn>,
                     i: nat, slug: string, name: string)
    requires Twins(have, existing, d, r) && i < |ms| && slug in r
    requires !StrayAt(d.Keys, existing, have, ms, i)
    ensures Enters(d, have, ms, i, (if slug in d then d[slug] else existing[slug], name))
            <==> Enters(r, have, ms, i, (r[slug], name))
  {
    if Trim(ms[i].slug) in d {
      CreatesAgree(have, existing, d, r, ms, i);
    } else {
      OnlyStraysDiffer(have, existing, d, r, ms, i);
    }
  }

  lemma KeysAgree(w: World, have: set<Key>, existing: map<string, Id>, d: map<string, Id>, r: map<string, Id>,
                  ms: seq<ModelIn>, slug: string, name: string)
    requires Twins(have, existing, d, r) && AllWritesLand(w) && slug in r
    requires NoStrayModel(d.Keys, existing, have, ms)
    ensures (if slug in d then d[slug] else existing[slug], name) in KeysOf(AddedModels(w, true, d, have, ms, |ms|))
            <==> (r[slug], name) in KeysOf(AddedModels(w, false, r, have, ms, |ms|))
  {
    var kd, kr := (if slug in d then d[slug] else existing[slug], name), (r[slug], name);
    AddedKeys(w, true, d, have, ms, kd);
    AddedKeys(w, false, r, have, ms, kr);
    forall i | 0 <= i < |ms|
      ensures Enters(d, have, ms, i, kd) <==> Enters(r, have, ms, i, kr)
    {
      EntriesAgree(have, existing, d, r, ms, i, slug, name);
    }
  }

  lemma ResolveAgrees(w: World, have: set<Key>, models: seq<Model>, existing: map<string, Id>, d: map<string, Id>,
                      r: map<string, Id>, ms: seq<ModelIn>, slug: string, name: string)
    requires Twins(have, existing, d, r) && AllWritesLand(w) && have == KeysOf(models)
    requires NoStrayModel(d.Keys, existing, have, ms)
    ensures var ld := Lookup(d, existing, ModelIds(models + AddedModels(w, true, d, have, ms, |ms|)));
            var lr := Lookup(r, existing, ModelIds(models + AddedModels(w, false, r, have, ms, |ms|)));
      Resolve(ld, slug, name).Some? <==> Resolve(lr, slug, name).Some?
  {
    var ad, ar := AddedModels(w, true, d, have, ms, |ms|), AddedModels(w, false, r, have, ms, |ms|);
    if slug in r {
      var kd, kr := (if slug in d then d[slug] else existing[slug], name), (r[slug], name);
      KeysAgree(w, have, existing, d, r, ms, slug, name);
      ModelIdsAre(models + ad, kd);
      ModelIdsAre(models + ar, kr);
      KeysJoin(models, ad, kd);
      KeysJoin(models, ar, kr);
    }
  }

  lemma {:induction false} ResolveAllAgrees(ld: Lookup, lr: Lookup, ts: seq<TargetIn>)
    requires forall slug, name :: Resolve(ld, slug, name).Some? <==> Resolve(lr, slug, name).Some?
    ensures ResolveAll(ld, ts).Some? <==> ResolveAll(lr, ts).Some?
  {
    if ts != [] {
      ResolveAllAgrees(ld, lr, ts[..|ts| - 1]);
    }
  }

  lemma {:induction false} RoutesAgree(w: World, ld: Lookup, lr: Lookup, names: set<string>, rs: seq<RouteIn>, n: nat)
    requires n <= |rs|
    requires forall slug, name :: Resolve(ld, slug, name).Some? <==> Resolve(lr, slug, name).Some?
    ensures var a, b := AddRoutes(w, ld, names, rs, n), AddRoutes(w, lr, names, rs, n);
      a.names == b.names && |a.rows| == |b.rows| && a.skipped == b.skipped
  {
    if n > 0 {
      RoutesAgree(w, ld, lr, names, rs, n - 1);
      ResolveAllAgrees(ld, lr, rs[n - 1].targets);
    }
  }

  // ----- the dry run predicts the real one -----

  /** The slugs under which the file brings a usable provider. */
  function Supplied(ps: seq<ProviderIn>): set<string> {
    set p | p in ps && Usable(p) && SlugOf(p) != "" :: SlugOf(p)
  }

  /** Nothing in the file hangs on a provider that only the database has. */
  predicate NoStrays(w: World, db: Database, f: File) {
    var supplied, existing, have := Supplied(f.providers), SlugIds(db.providers), KeysOf(db.models);
    && NoStrayModel(supplied, existing, have, f.models)
    && NoStrayCredential(w, supplied, existing, f.credentials)
  }

  lemma LastOfGrows(pending: seq<Pending>, q: Pending, s: string)
    ensures LastOf(pending + [q], s) == if q.orig == s then Some(q.provider) else LastOf(pending, s)
  {
    assert (pending + [q])[..|pending|] == pending;
  }

  lemma PendingStep(w: World, plan: Plan, p: ProviderIn, i: nat, s: string)
    ensures LastOf(PlanOne(w, plan, p, i).pending, s).Some?
            <==> LastOf(plan.pending, s).Some? || (Usable(p) && SlugOf(p) != "" && SlugOf(p) == s)
  {
    var after := PlanOne(w, plan, p, i).pending;
    if after != plan.pending {
      LastOfGrows(plan.pending, after[|plan.pending|], s);
    }
  }

  lemma {:induction false} PendingSlugs(w: World, taken: set<string>, ps: seq<ProviderIn>, s: string)
    ensures LastOf(PlanAll(w, taken, ps).pending, s).Some?
            <==> exists p :: p in ps && Usable(p) && SlugOf(p) != "" && SlugOf(p) == s
  {
    if ps != [] {
      var n := |ps| - 1;
      PendingSlugs(w, taken, ps[..n], s);
      assert ps == ps[..n] + [ps[n]];
      PendingStep(w, PlanAll(w, taken, ps[..n]), ps[n], n, s);
    }
  }

  lemma SuppliedAreKeys(w: World, db: Database, f: File)
    requires Sane(w, db)
    ensures IdsOf(w, db, f, true).Keys == Supplied(f.providers)
  {
    IdsAreTwins(w, db, f);
    forall s ensures s in IdsOf(w, db, f, true) <==> s in Supplied(f.providers) {
      PendingSlugs(w, TakenSlugs(db.providers), f.providers, s);
    }
  }

  /** When no write fails, the report of the dry run is the report of the real run
      exactly if no model or credential of the file is a stray. */
  lemma DryRunPredictsExactly(w: World, db: Database, f: File)
    requires Sane(w, db) && AllWritesLand(w)
    ensures ReportOf(w, db, f, true) == ReportOf(w, db, f, false) <==> NoStrays(w, db, f)
  {
    var have, existing := KeysOf(db.models), SlugIds(db.providers);
    var d, r := IdsOf(w, db, f, true), IdsOf(w, db, f, false);
    IdsAreTwins(w, db, f);
    SuppliedAreKeys(w, db, f);
    ModelCounts(w, have, existing, d, r, f.models);
    SkippedCounts(w, have, existing, d, r, f.credentials);
    if NoStrays(w, db, f) {
      CredentialCounts(w, have, existing, d, r, f.credentials);
      var ld, lr := LookupOf(w, db, f, true), LookupOf(w, db, f, false);
      forall slug, name ensures Resolve(ld, slug, name).Some? <==> Resolve(lr, slug, name).Some? {
        ResolveAgrees(w, have, db.models, existing, d, r, f.models, slug, name);
      }
      RoutesAgree(w, ld, lr, set x | x in db.routes :: x.name, f.routes, |f.routes|);
    }
  }

  /** In particular when every model and credential names a provider the file supplies. */
  lemma DryRunPredicts(w: World, db: Database, f: File)
    requires Sane(w, db) && AllWritesLand(w)
    requires forall m :: m in f.models ==> Trim(m.slug) in Supplied(f.providers)
    requires forall c :: c in f.credentials ==> Trim(c.slug) in Supplied(f.providers)
    ensures ReportOf(w, db, f, true) == ReportOf(w, db, f, false)
  {
    forall i | 0 <= i < |f.models|
      ensures !StrayAt(Supplied(f.providers), SlugIds(db.providers), KeysOf(db.models), f.models, i)
    {
      assert f.models[i] in f.models;
    }
    DryRunPredictsExactly(w, db, f);
  }

  // ----- importing only adds -----

  /** A provider to be created shares neither slug nor identity with a stored one. */
  lemma PendingIsNew(w: World, db: Database, ps: seq<ProviderIn>, plan: Plan, q: Pending, p: Provider)
    requires Sane(w, db) && PendingOk(w, TakenSlugs(db.providers), ps, plan, q) && p in db.providers
    ensures q.provider.slug != p.slug && q.provider.id != p.id
  {
    assert p.slug in TakenSlugs(db.providers);
    var n: nat :| q.provider.id == w.NewId(Providers, n);
    NewIdIsNew(w, db, n);
  }

  lemma MergedProvidersDiffer(w: World, db: Database, f: File)
    requires Sane(w, db)
    ensures DistinctProviders(db.providers + ProviderRows(PlanOf(w, db, f).pending))
  {
    var plan, n := PlanOf(w, db, f), |db.providers|;
    PlanIsOk(w, TakenSlugs(db.providers), f.providers);
    var after := db.providers + ProviderRows(plan.pending);
    forall i, j | 0 <= i < j < |after| ensures after[i].slug != after[j].slug && after[i].id != after[j].id {
      if i < n <= j {
        PendingIsNew(w, db, f.providers, plan, plan.pending[j - n], db.providers[i]);
      }
    }
  }

  lemma ImportOnlyAdds(w: World, db: Database, f: File)
    requires Sane(w, db)
    ensures var after := Merged(w, db, f);
      && db.providers <= after.providers && db.models <= after.models && db.credentials <= after.credentials
      && db.groups <= after.groups && db.users <= after.users && db.keys <= after.keys
      && db.routes <= after.routes && db.targets <= after.targets
      && DistinctProviders(after.providers)
  {
    MergedProvidersDiffer(w, db, f);
  }

  lemma AddedFrom(w: World, dry: bool, idOf: map<string, Id>, have: set<Key>, ms: seq<ModelIn>, m: Model)
    requires m in AddedModels(w, dry, idOf, have, ms, |ms|)
    ensures exists i :: 0 <= i < |ms| && Creates(idOf, have, ms, i) && m == ModelRow(w, dry, KeyOf(idOf, ms[i]), i)
  {
    var pick := (i: nat) => ModelAt(w, dry, idOf, have, ms, i);
    GatherHas(pick, |ms|, m);
    var i :| 0 <= i < |ms| && pick(i) == Some(m);
    assert Creates(idOf, have, ms, i);
  }

  /** Where a model entry of the file belongs. */
  predicate Homed(db: Database, pending: seq<Pending>, slug: string, provider: Id) {
    if LastOf(pending, slug).Some? then provider == LastOf(pending, slug).value.id
    else exists p :: p in db.providers && p.slug == slug && p.id == provider
  }

  /** The provider that the file's slug leads to in a real run. */
  lemma SlugLeadsHome(w: World, db: Database, f: File, slug: string)
    requires Sane(w, db) && slug in IdsOf(w, db, f, false)
    ensures Homed(db, PlanOf(w, db, f).pending, slug, IdsOf(w, db, f, false)[slug])
    ensures slug in Supplied(f.providers) ==> forall p :: p in db.providers ==> p.id != IdsOf(w, db, f, false)[slug]
  {
    FileIdsAre(false, SlugIds(db.providers), PlanOf(w, db, f).pending, slug);
    SlugIdsAre(db.providers, slug);
    PendingSlugs(w, TakenSlugs(db.providers), f.providers, slug);
    if slug in Supplied(f.providers) {
      PendingFacts(w, db, f, slug);
      var n: nat :| IdsOf(w, db, f, false)[slug] == w.NewId(Providers, n);
      NewIdIsNew(w, db, n);
    }
  }

  /** Every model the import creates sits under the last provider the file brings by
      the slug it names, never under an older one of that slug; only a slug the file
      does not bring refers to the database. */
  lemma ModelsFollowTheFile(w: World, db: Database, f: File, m: Model)
    requires Sane(w, db) && m in ModelsOf(w, db, f, false)
    ensures exists i ::
              && 0 <= i < |f.models| && m.name == Trim(f.models[i].name)
              && Homed(db, PlanOf(w, db, f).pending, Trim(f.models[i].slug), m.provider)
              && (Trim(f.models[i].slug) in Supplied(f.providers) ==> forall p :: p in db.providers ==> p.id != m.provider)
  {
    var ids := IdsOf(w, db, f, false);
    AddedFrom(w, false, ids, KeysOf(db.models), f.models, m);
    var i :| 0 <= i < |f.models| && Creates(ids, KeysOf(db.models), f.models, i)
             && m == ModelRow(w, false, KeyOf(ids, f.models[i]), i);
    SlugLeadsHome(w, db, f, Trim(f.models[i].slug));
  }

  // ----- routes -----

  /** A chain numbered from 0, headed by the route's own target, over models that
      belong to their providers. */
  predicate Chained(models: seq<Model>, row: RouteRow) {
    && row.chain != []
    && row.route.provider == row.chain[0].provider && row.route.model == row.chain[0].model
    && forall k :: 0 <= k < |row.chain| ==>
         row.chain[k].position == k && row.chain[k].route == row.route.id
         && exists m :: m in models && m.id == row.chain[k].model && m.provider == row.chain[k].provider
  }

  lemma {:induction false} ResolvedModels(l: Lookup, models: seq<Model>, ts: seq<TargetIn>, k: nat)
    requires l.modelIds == ModelIds(models) && ResolveAll(l, ts).Some? && k < |ResolveAll(l, ts).value|
    ensures exists m :: m in models && m.id == ResolveAll(l, ts).value[k].model
                        && m.provider == ResolveAll(l, ts).value[k].provider
  {
    var n := |ts| - 1;
    ResolveAllLength(l, ts);
    ResolveAllLength(l, ts[..n]);
    if k < n {
      ResolvedModels(l, models, ts[..n], k);
    } else {
      var slug, name := Trim(ts[n].slug), Trim(ts[n].name);
      ModelIdsAre(models, (ProviderOf(l, slug).value, name));
    }
  }

  lemma {:induction false} RowsAreChained(w: World, l: Lookup, models: seq<Model>, names: set<string>, rs: seq<RouteIn>,
                                          n: nat, row: RouteRow)
    requires n <= |rs| && l.modelIds == ModelIds(models) && row in AddRoutes(w, l, names, rs, n).rows
    ensures Chained(models, row)
  {
    if row in AddRoutes(w, l, names, rs, n - 1).rows {
      RowsAreChained(w, l, models, names, rs, n - 1, row);
    } else {
      ResolveAllLength(l, rs[n - 1].targets);
      forall k | 0 <= k < |row.chain|
        ensures exists m :: m in models && m.id == row.chain[k].model && m.provider == row.chain[k].provider
      {
        ResolvedModels(l, models, rs[n - 1].targets, k);
      }
    }
  }

  /** Every route the import creates is a whole chain over models of the merged
      database. */
  lemma RoutesAreWhole(w: World, db: Database, f: File, row: RouteRow)
    requires row in RoutesOf(w, db, f, false).rows
    ensures Chained(Merged(w, db, f).models, row)
  {
    RowsAreChained(w, LookupOf(w, db, f, false), db.models + ModelsOf(w, db, f, false),
                   set r | r in db.routes :: r.name, f.routes, |f.routes|, row);
  }
}
