/** Flattening grouped tools into one table, and rewriting a forced choice so that it
    names a tool of that table. */
module Tools {
  import opened Lists
  import opened Options

  datatype ToolIn =
    | Plain(name: string)
    | LocalShell
    | Namespace(name: string, tools: seq<string>)

  const LOCAL_SHELL := "local_shell"

  function Qualified(group: string, name: string): string {
    group + "__" + name
  }

  function NamesOf(t: ToolIn): seq<string> {
    match t
    case Plain(name) => [name]
    case LocalShell => [LOCAL_SHELL]
    case Namespace(name, tools) => seq(|tools|, i requires 0 <= i < |tools| => Qualified(name, tools[i]))
  }

  function Flattened(ts: seq<ToolIn>): seq<string> {
    if ts == [] then [] else Flattened(ts[..|ts| - 1]) + NamesOf(ts[|ts| - 1])
  }

  method FlattenNamespaceTools(ts: seq<ToolIn>) returns (flat: seq<string>)
    ensures flat == Flattened(ts)
  {
    flat := [];
    for i := 0 to |ts|
      invariant flat == Flattened(ts[..i])
    {
      assert ts[..i + 1][..i] == ts[..i];
      match ts[i]
      case Plain(name) => flat := flat + [name];
      case LocalShell => flat := flat + [LOCAL_SHELL];
      case Namespace(name, tools) =>
        var names := QualifyAll(name, tools);
        flat := flat + names;
    }
    assert ts[..|ts|] == ts;
  }

  method QualifyAll(group: string, tools: seq<string>) returns (names: seq<string>)
    ensures names == NamesOf(Namespace(group, tools))
  {
    names := [];
    for j := 0 to |tools|
      invariant names == NamesOf(Namespace(group, tools))[..j]
    {
      names := names + [Qualified(group, tools[j])];
    }
  }

  // ----- the forced choice -----

  /** The flattened names the plain name may stand for. */
  function Candidates(ts: seq<ToolIn>, flat: seq<string>, name: string): set<string> {
    set t | t in ts && t.Namespace? && Qualified(t.name, name) in flat :: Qualified(t.name, name)
  }

  function Members(flat: seq<string>, group: string): set<string> {
    set m | m in flat && group + "__" <= m
  }

  /** Rewritten exactly when the name itself is gone and one candidate is left. */
  method RewriteFunctionChoice(ts: seq<ToolIn>, flat: seq<string>, name: string) returns (r: Option<string>)
    ensures r.Some? ==> name !in flat && Candidates(ts, flat, name) == {r.value}
    ensures r.None? ==> name in flat || |Candidates(ts, flat, name)| != 1
  {
    if name in flat {
      return None;
    }
    r := None;
    for i := 0 to |ts|
      invariant Candidates(ts[..i], flat, name) == if r.Some? then {r.value} else {}
    {
      CandidatesGrow(ts[..i], ts[i], flat, name);
      assert ts[..i + 1] == ts[..i] + [ts[i]];
      if ts[i].Namespace? {
        var cand := Qualified(ts[i].name, name);
        if cand in flat {
          if r.Some? && r.value != cand {
            assert ts == ts[..i + 1] + ts[i + 1..];
            assert {r.value, cand} <= Candidates(ts, flat, name);
            TwoNames(Candidates(ts, flat, name), r.value, cand);
            return None;
          }
          r := Some(cand);
        }
      }
    }
    assert ts[..|ts|] == ts;
  }

  lemma CandidatesGrow(ts: seq<ToolIn>, t: ToolIn, flat: seq<string>, name: string)
    ensures Candidates(ts + [t], flat, name)
            == Candidates(ts, flat, name)
               + (if t.Namespace? && Qualified(t.name, name) in flat then {Qualified(t.name, name)} else {})
  {
    var both := ts + [t];
    assert t in both;
    assert forall x :: x in ts ==> x in both;
  }

  lemma TwoNames(names: set<string>, a: string, b: string)
    requires a in names && b in names && a != b
    ensures |names| >= 2
  {
    assert {a, b} <= names && names == {a, b} + (names - {a, b});
    assert |{a, b}| == 2;
  }

  method RewriteNamespaceChoice(flat: seq<string>, group: string) returns (r: Option<string>)
    ensures r.Some? ==> Members(flat, group) == {r.value}
    ensures r.None? ==> |Members(flat, group)| != 1
  {
    r := None;
    for i := 0 to |flat|
      invariant Members(flat[..i], group) == if r.Some? then {r.value} else {}
    {
      assert flat[..i + 1] == flat[..i] + [flat[i]];
      if group + "__" <= flat[i] {
        if r.Some? && r.value != flat[i] {
          assert r.value in Members(flat[..i], group);
          TwoNames(Members(flat, group), r.value, flat[i]);
          return None;
        }
        r := Some(flat[i]);
      }
    }
    assert flat[..|flat|] == flat;
  }

  // ----- properties -----

  /** The tools a group of the request itself contributes. */
  function OwnTools(ts: seq<ToolIn>, group: string): set<string> {
    set t, i | t in ts && t.Namespace? && t.name == group && 0 <= i < |t.tools| :: Qualified(group, t.tools[i])
  }

  lemma {:induction false} FlattenedHas(ts: seq<ToolIn>, m: string)
    ensures m in Flattened(ts) <==> exists t :: t in ts && m in NamesOf(t)
  {
    if ts != [] {
      FlattenedHas(ts[..|ts| - 1], m);
      assert ts == ts[..|ts| - 1] + [ts[|ts| - 1]];
    }
  }

  lemma Grouped<T>(a: seq<T>, b: seq<T>, c: seq<T>)
    ensures a + b + c == a + (b + c)
  {
  }

  /** A plain name stands for one tool exactly if one name of the table is a group's
      name, two underscores and the plain name. */
  lemma ChosenExactly(ts: seq<ToolIn>, flat: seq<string>, name: string, m: string)
    ensures Candidates(ts, flat, name) == {m} <==>
      && m in flat && (exists t :: t in ts && t.Namespace? && m == t.name + "__" + name)
      && forall t :: t in ts && t.Namespace? && t.name + "__" + name in flat ==> t.name + "__" + name == m
  {
    var names := Candidates(ts, flat, name);
    forall x ensures x in names <==> x in flat && exists t :: t in ts && t.Namespace? && x == t.name + "__" + name {
    }
    if m in flat && (exists t :: t in ts && t.Namespace? && m == t.name + "__" + name)
       && forall t :: t in ts && t.Namespace? && t.name + "__" + name in flat ==> t.name + "__" + name == m
    {
      assert m in names;
      assert forall x :: x in names ==> x == m;
    }
  }

  /** A group stands for one tool exactly if one name of the table begins like it. */
  lemma GroupChosenExactly(flat: seq<string>, group: string, m: string)
    ensures Members(flat, group) == {m} <==>
      m in flat && group + "__" <= m && forall x :: x in flat && group + "__" <= x ==> x == m
  {
    var names := Members(flat, group);
    forall x ensures x in names <==> x in flat && group + "__" <= x {
    }
    if m in flat && group + "__" <= m && forall x :: x in flat && group + "__" <= x ==> x == m {
      assert m in names;
      assert forall x :: x in names ==> x == m;
    }
  }

  lemma OneMoreFlattened(ts: seq<ToolIn>, t: ToolIn)
    ensures Flattened(ts + [t]) == Flattened(ts) + NamesOf(t)
  {
    assert (ts + [t])[..|ts|] == ts;
  }

  lemma InOrderStep(a: seq<ToolIn>, front: seq<ToolIn>, last: ToolIn)
    requires Flattened(a + front) == Flattened(a) + Flattened(front)
    ensures Flattened(a + (front + [last])) == Flattened(a) + Flattened(front + [last])
  {
    Grouped(a, front, [last]);
    OneMoreFlattened(a + front, last);
    OneMoreFlattened(front, last);
    Grouped(Flattened(a), Flattened(front), NamesOf(last));
  }

  /** The table lists the tools in the order of the request, each group's in its own. */
  lemma {:induction false} FlattenedInOrder(a: seq<ToolIn>, b: seq<ToolIn>)
    ensures Flattened(a + b) == Flattened(a) + Flattened(b)
  {
    if b == [] {
      assert a + b == a && Flattened(a) + [] == Flattened(a);
    } else {
      FlattenedInOrder(a, b[..|b| - 1]);
      InOrderStep(a, b[..|b| - 1], b[|b| - 1]);
      assert b[..|b| - 1] + [b[|b| - 1]] == b;
    }
  }

  lemma FlattenedOne(t: ToolIn)
    ensures t.Plain? ==> Flattened([t]) == [t.name]
    ensures t.LocalShell? ==> Flattened([t]) == ["local_shell"]
    ensures t.Namespace? ==>
      && |Flattened([t])| == |t.tools|
      && forall i :: 0 <= i < |t.tools| ==> Flattened([t])[i] == t.name + "__" + t.tools[i]
  {
    assert [t][..0] == [] && Flattened([t]) == [] + NamesOf(t);
  }

  lemma OwnToolsAreMembers(ts: seq<ToolIn>, group: string)
    ensures OwnTools(ts, group) <= Members(Flattened(ts), group)
  {
    forall m | m in OwnTools(ts, group) ensures m in Members(Flattened(ts), group) {
      var t, i :| t in ts && t.Namespace? && t.name == group && 0 <= i < |t.tools| && m == Qualified(group, t.tools[i]);
      assert NamesOf(t)[i] == m;
      FlattenedHas(ts, m);
      assert m[..|group + "__"|] == group + "__";
    }
  }

  /** A forced group is rewritten to a tool of that group exactly when the group has a
      tool at all; an empty one is answered with whatever else begins with its name. */
  lemma GroupChoiceStaysInside(ts: seq<ToolIn>, group: string, m: string)
    requires Members(Flattened(ts), group) == {m}
    ensures m in OwnTools(ts, group) <==> OwnTools(ts, group) != {}
  {
    OwnToolsAreMembers(ts, group);
    if OwnTools(ts, group) != {} {
      var x :| x in OwnTools(ts, group);
      assert x in Members(Flattened(ts), group);
    }
  }

  /** The tools that groups of the request bring under the plain name. */
  function Brought(ts: seq<ToolIn>, name: string): set<string> {
    set t | t in ts && t.Namespace? && name in t.tools :: Qualified(t.name, name)
  }

  lemma BroughtAreCandidates(ts: seq<ToolIn>, name: string)
    ensures Brought(ts, name) <= Candidates(ts, Flattened(ts), name)
  {
    forall m | m in Brought(ts, name) ensures m in Candidates(ts, Flattened(ts), name) {
      var t :| t in ts && t.Namespace? && name in t.tools && m == Qualified(t.name, name);
      var i :| 0 <= i < |t.tools| && t.tools[i] == name;
      assert NamesOf(t)[i] == m;
      FlattenedHas(ts, m);
    }
  }

  /** A forced function that is rewritten becomes a tool some group brought under that
      name exactly when one of the groups has such a tool at all. */
  lemma FunctionChoiceIsReal(ts: seq<ToolIn>, name: string, m: string)
    requires Candidates(ts, Flattened(ts), name) == {m}
    ensures m in Brought(ts, name) <==> exists t :: t in ts && t.Namespace? && name in t.tools
  {
    BroughtAreCandidates(ts, name);
    if t :| t in ts && t.Namespace? && name in t.tools {
      assert Qualified(t.name, name) in Brought(ts, name);
    }
  }

  /** A group that brings no tool lends its name to whatever tool is called so. */
  lemma EmptyGroupLendsItsName(group: string, name: string)
    ensures var ts := [Plain(Qualified(group, name)), Namespace(group, [])];
      Candidates(ts, Flattened(ts), name) == {Qualified(group, name)} && Brought(ts, name) == {}
  {
    var ts := [Plain(Qualified(group, name)), Namespace(group, [])];
    assert NamesOf(ts[0]) == [Qualified(group, name)];
    assert Qualified(group, name) in NamesOf(ts[0]) && ts[0] in ts;
    FlattenedHas(ts, Qualified(group, name));
    assert ts[1] in ts && ts[1].Namespace?;
  }

  // ----- when two groups stay apart -----

  /** One name is the other followed by an underscore, or by two and more. */
  predicate Runs(a: string, b: string) {
    b == a + "_" || a + "__" <= b
  }

  predicate Entangled(a: string, b: string) {
    Runs(a, b) || Runs(b, a)
  }

  lemma OnlyRunsCollide(a: string, s: string, b: string, t: string)
    requires Qualified(a, s) == Qualified(b, t) && |a| < |b|
    ensures Runs(a, b)
  {
    var q := Qualified(a, s);
    assert q[..|b|] == b && q[..|a|] == a;
    assert q[|a|] == '_' && q[|a| + 1] == '_';
    assert b == a + q[|a|..|b|];
    if |b| == |a| + 1 {
      assert q[|a|..|b|] == "_";
    } else {
      assert b[..|a| + 2] == a + "__";
    }
  }

  lemma SameLengthSameGroup(a: string, s: string, b: string, t: string)
    requires Qualified(a, s) == Qualified(b, t) && |a| == |b|
    ensures a == b
  {
    assert Qualified(a, s)[..|a|] == a && Qualified(b, t)[..|b|] == b;
  }

  lemma RunsCollide(a: string, b: string)
    requires Runs(a, b)
    ensures exists s, t :: s != "" && t != "" && Qualified(a, s) == Qualified(b, t)
  {
    if b == a + "_" {
      assert Qualified(a, "_x") == Qualified(b, "x");
    } else {
      var rest := b[|a| + 2..];
      assert b == a + "__" + rest;
      assert Qualified(a, rest + "__x") == Qualified(b, "x");
    }
  }

  /** The prefix keeps two groups apart, whatever their tools are called, exactly when
      neither name runs on from the other through an underscore. */
  lemma GroupsCollideExactly(a: string, b: string)
    requires a != b
    ensures (exists s, t :: s != "" && t != "" && Qualified(a, s) == Qualified(b, t)) <==> Entangled(a, b)
    ensures (exists s, t :: Qualified(a, s) == Qualified(b, t)) <==> Entangled(a, b)
  {
    if s, t :| Qualified(a, s) == Qualified(b, t) {
      if |a| < |b| {
        OnlyRunsCollide(a, s, b, t);
      } else if |b| < |a| {
        OnlyRunsCollide(b, t, a, s);
      } else {
        SameLengthSameGroup(a, s, b, t);
      }
    }
    if Runs(a, b) {
      RunsCollide(a, b);
    } else if Runs(b, a) {
      RunsCollide(b, a);
    }
  }

  /** Between groups that are not entangled a flattened name tells the group and the
      tool it stands for. */
  lemma ApartNamesAreUnique(a: string, s: string, b: string, t: string)
    requires !Entangled(a, b) && Qualified(a, s) == Qualified(b, t)
    ensures a == b && s == t
  {
    if a != b {
      GroupsCollideExactly(a, b);
    } else {
      assert Qualified(a, s)[|a| + 2..] == s && Qualified(b, t)[|b| + 2..] == t;
    }
  }

  /** The prefix does not keep names apart: two groups can yield the same one. */
  lemma GroupsMayCollide(a: string, b: string, c: string)
    ensures var ts := [Namespace(a, [b + "__" + c]), Namespace(a + "__" + b, [c])];
      && Flattened(ts) == [a + "__" + b + "__" + c, a + "__" + b + "__" + c]
  {
    var ts := [Namespace(a, [b + "__" + c]), Namespace(a + "__" + b, [c])];
    assert ts[..1] == [ts[0]] && ts[..1][..0] == [];
    assert a + "__" + (b + "__" + c) == a + "__" + b + "__" + c;
    assert Flattened(ts[..1]) == NamesOf(ts[0]);
  }
}
