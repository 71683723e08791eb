/** The thinking-effort ladder: parsing and printing lists of levels, clamping a
    level into a model's list, and what a request finally sends. */
module Effort {
  import opened Options
  import opened Text

  /** Other is any string that is not one of the named constants. */
  datatype Level = Unset | NoThinking | Minimal | Low | Medium | High | XHigh | Max | Other(name: string)

  const KnownLevels := [Minimal, Low, Medium, High, XHigh, Max]

  /** Position on the ladder, or -1. */
  function Rank(l: Level): (r: int)
    ensures r == -1 || (0 <= r < |KnownLevels| && KnownLevels[r] == l)
    ensures r == -1 ==> l !in KnownLevels
  {
    match l
    case Minimal => 0
    case Low => 1
    case Medium => 2
    case High => 3
    case XHigh => 4
    case Max => 5
    case _ => -1
  }

  predicate Ranked(l: Level) {
    Rank(l) >= 0
  }

  function Name(l: Level): string {
    match l
    case Unset => ""
    case NoThinking => "none"
    case Minimal => "minimal"
    case Low => "low"
    case Medium => "medium"
    case High => "high"
    case XHigh => "xhigh"
    case Max => "max"
    case Other(name) => name
  }

  /** The level a trimmed lower-case spelling stands for, or Unset. */
  function Alias(t: string): Level {
    if t == "none" || t == "off" || t == "disabled" then NoThinking
    else if t == "minimal" || t == "min" then Minimal
    else if t == "low" then Low
    else if t == "medium" || t == "mid" || t == "default" then Medium
    else if t == "high" then High
    else if t == "xhigh" || t == "x-high" || t == "x_high" || t == "extra_high" || t == "very_high" then XHigh
    else if t == "max" || t == "maximum" then Max
    else Unset
  }

  function Parse(s: string): Level {
    Alias(Lower(Trim(s)))
  }

  // ----- lists of levels -----

  datatype Levels = Levels(known: seq<Level>, unknown: seq<string>)

  /** One more part of the list. */
  function Take(l: Levels, part: string): Levels {
    var t := Trim(part);
    var level := Parse(t);
    if t == "" then l
    else if level == Unset then if t in l.unknown then l else l.(unknown := l.unknown + [t])
    else if level == NoThinking || level in l.known then l
    else l.(known := l.known + [level])
  }

  function TakeAll(parts: seq<string>): Levels {
    if parts == [] then Levels([], []) else Take(TakeAll(parts[..|parts| - 1]), parts[|parts| - 1])
  }

  function Insert(l: Level, s: seq<Level>): seq<Level> {
    if s == [] || Rank(l) <= Rank(s[0]) then [l] + s else [s[0]] + Insert(l, s[1..])
  }

  function SortByRank(s: seq<Level>): seq<Level> {
    if s == [] then [] else Insert(s[0], SortByRank(s[1..]))
  }

  function Parsed(csv: string): Levels {
    var l := TakeAll(Split(csv, ','));
    l.(known := SortByRank(l.known))
  }

  function Names(known: seq<Level>): seq<string> {
    seq(|known|, i requires 0 <= i < |known| => Name(known[i]))
  }

  function Format(l: Levels): string {
    Join(Names(l.known) + l.unknown, ',')
  }

  method ParseLevels(csv: string) returns (known: seq<Level>, unknown: seq<string>)
    ensures Levels(known, unknown) == Parsed(csv)
  {
    var seen: set<Level> := {};
    known, unknown := [], [];
    var parts := Split(csv, ',');
    for i := 0 to |parts|
      invariant Levels(known, unknown) == TakeAll(parts[..i])
      invariant forall l :: l in seen <==> l in known
    {
      assert parts[..i + 1][..i] == parts[..i];
      var part := Trim(parts[i]);
      if part != "" {
        var level := Parse(part);
        if level == Unset {
          if part !in unknown {
            unknown := unknown + [part];
          }
        } else if level != NoThinking && level !in seen {
          seen := seen + {level};
          known := known + [level];
        }
      }
    }
    assert parts[..|parts|] == parts;
    known := SortByRank(known);
  }

  predicate Increasing(s: seq<Level>) {
    && (forall i :: 0 <= i < |s| ==> Ranked(s[i]))
    && (forall i, j :: 0 <= i < j < |s| ==> Rank(s[i]) < Rank(s[j]))
  }

  predicate Distinct<T(==)>(s: seq<T>) {
    forall i, j :: 0 <= i < j < |s| ==> s[i] != s[j]
  }

  /** A spelling that belongs in the unknown list. */
  predicate Foreign(u: string) {
    u != "" && Tight(u) && ',' !in u && Parse(u) == Unset
  }

  predicate Normal(l: Levels) {
    Increasing(l.known) && Distinct(l.unknown) && forall u :: u in l.unknown ==> Foreign(u)
  }

  // ----- sorting -----

  lemma ConsIncreasing(l: Level, s: seq<Level>)
    requires Ranked(l) && Increasing(s) && (s != [] ==> Rank(l) < Rank(s[0]))
    ensures Increasing([l] + s)
  {
  }

  lemma {:induction false} InsertIncreasing(l: Level, s: seq<Level>)
    requires Ranked(l) && Increasing(s) && l !in s
    ensures Increasing(Insert(l, s))
  {
    if s == [] || Rank(l) <= Rank(s[0]) {
      assert s != [] ==> s[0] in s;
      ConsIncreasing(l, s);
    } else {
      InsertIncreasing(l, s[1..]);
      ConsIncreasing(s[0], Insert(l, s[1..]));
    }
  }

  lemma {:induction false} InsertAdds(l: Level, s: seq<Level>)
    ensures forall x :: x in Insert(l, s) <==> x == l || x in s
  {
    if s != [] {
      assert s == [s[0]] + s[1..];
      InsertAdds(l, s[1..]);
    }
  }

  lemma {:induction false} SortIncreasing(s: seq<Level>)
    requires Distinct(s) && forall l :: l in s ==> Ranked(l)
    ensures Increasing(SortByRank(s))
    ensures forall x :: x in SortByRank(s) <==> x in s
  {
    if s != [] {
      SortIncreasing(s[1..]);
      assert s == [s[0]] + s[1..];
      assert s[0] !in s[1..];
      InsertIncreasing(s[0], SortByRank(s[1..]));
      InsertAdds(s[0], SortByRank(s[1..]));
    }
  }

  lemma {:induction false} SortedStays(s: seq<Level>)
    requires Increasing(s)
    ensures SortByRank(s) == s
  {
    if s != [] {
      SortedStays(s[1..]);
    }
  }

  // ----- the normal form -----

  lemma {:induction false} TakeAllIsNormal(parts: seq<string>)
    requires forall p :: p in parts ==> ',' !in p
    ensures var l := TakeAll(parts);
      Distinct(l.known) && Distinct(l.unknown)
      && (forall k :: k in l.known ==> Ranked(k)) && (forall u :: u in l.unknown ==> Foreign(u))
  {
    if parts != [] {
      var n := |parts| - 1;
      TakeAllIsNormal(parts[..n]);
      TrimIsTight(parts[n]);
    }
  }

  lemma ParsedIsNormal(csv: string)
    ensures Normal(Parsed(csv))
  {
    SplitParts(csv, ',');
    TakeAllIsNormal(Split(csv, ','));
    SortIncreasing(TakeAll(Split(csv, ',')).known);
  }

  /** What a part of the list stands for. */
  predicate Asks(parts: seq<string>, l: Level) {
    exists p :: p in parts && Trim(p) != "" && Parse(Trim(p)) == l
  }

  lemma TakeTells(before: Levels, part: string, l: Level, u: string)
    ensures var t := Trim(part); var after := Take(before, part);
      && (l in after.known <==> l in before.known || (l != Unset && l != NoThinking && t != "" && Parse(t) == l))
      && (u in after.unknown <==> u in before.unknown || (u != "" && Parse(u) == Unset && t == u))
  {
  }

  lemma AsksMore(before: seq<string>, last: string, l: Level)
    ensures Asks(before + [last], l) <==> Asks(before, l) || (Trim(last) != "" && Parse(Trim(last)) == l)
  {
    var parts := before + [last];
    assert last in parts && forall p :: p in before ==> p in parts;
  }

  /** The level and the part are taken from the list exactly if it spells them. */
  predicate TakenExactly(parts: seq<string>, l: Level, u: string) {
    && (l in TakeAll(parts).known <==> l != Unset && l != NoThinking && Asks(parts, l))
    && (u in TakeAll(parts).unknown <==> u != "" && Parse(u) == Unset && exists p :: p in parts && Trim(p) == u)
  }

  lemma TakenExactlyStep(before: seq<string>, last: string, l: Level, u: string)
    requires TakenExactly(before, l, u)
    ensures TakenExactly(before + [last], l, u)
  {
    TakeAllGrows(before, last);
    TakeTells(TakeAll(before), last, l, u);
    AsksMore(before, last, l);
    var parts := before + [last];
    assert (exists p :: p in parts && Trim(p) == u) <==> (exists p :: p in before && Trim(p) == u) || Trim(last) == u by {
      assert last in parts && forall p :: p in before ==> p in parts;
    }
  }

  lemma {:induction false} TakeAllExactly(parts: seq<string>, l: Level, u: string)
    ensures TakenExactly(parts, l, u)
  {
    if parts != [] {
      TakeAllExactly(parts[..|parts| - 1], l, u);
      TakenExactlyStep(parts[..|parts| - 1], parts[|parts| - 1], l, u);
      assert parts[..|parts| - 1] + [parts[|parts| - 1]] == parts;
    }
  }

  /** A list names exactly the levels that some part of it spells, "none" apart, and
      exactly the other parts that spell none. */
  lemma ParsedExactly(csv: string, l: Level, u: string)
    ensures l in Parsed(csv).known <==> Ranked(l) && Asks(Split(csv, ','), l)
    ensures u in Parsed(csv).unknown <==> u != "" && Parse(u) == Unset && exists p :: p in Split(csv, ',') && Trim(p) == u
  {
    SplitParts(csv, ',');
    TakeAllIsNormal(Split(csv, ','));
    SortIncreasing(TakeAll(Split(csv, ',')).known);
    TakeAllExactly(Split(csv, ','), l, u);
  }

  lemma NameIsTight(l: Level)
    requires Ranked(l)
    ensures Tight(Name(l)) && ',' !in Name(l) && Name(l) != "" && Lower(Name(l)) == Name(l)
  {
  }

  lemma NameIsItsAlias(l: Level)
    requires Ranked(l)
    ensures Alias(Name(l)) == l
  {
  }

  lemma NameParses(l: Level)
    requires Ranked(l)
    ensures Tight(Name(l)) && ',' !in Name(l) && Name(l) != "" && Parse(Name(l)) == l
  {
    NameIsTight(l);
    TightIsTrimmed(Name(l));
    NameIsItsAlias(l);
  }

  lemma KnownNameIsTaken(parts: seq<string>, l: Levels, level: Level)
    requires TakeAll(parts) == l && Ranked(level) && level !in l.known
    ensures TakeAll(parts + [Name(level)]) == l.(known := l.known + [level])
  {
    TakeAllGrows(parts, Name(level));
    NameParses(level);
    TightIsTrimmed(Name(level));
  }

  lemma ForeignPartIsTaken(parts: seq<string>, l: Levels, u: string)
    requires TakeAll(parts) == l && Foreign(u) && u !in l.unknown
    ensures TakeAll(parts + [u]) == l.(unknown := l.unknown + [u])
  {
    TakeAllGrows(parts, u);
    TightIsTrimmed(u);
  }

  lemma TakeAllGrows(parts: seq<string>, part: string)
    ensures TakeAll(parts + [part]) == Take(TakeAll(parts), part)
  {
    assert (parts + [part])[..|parts|] == parts;
  }

  lemma NamesGrow(known: seq<Level>, level: Level)
    ensures Names(known + [level]) == Names(known) + [Name(level)]
  {
  }

  lemma LastIsNew(before: seq<Level>, level: Level)
    requires Increasing(before + [level])
    ensures Increasing(before) && Ranked(level) && level !in before
  {
    var known := before + [level];
    assert known[|before|] == level;
    forall i | 0 <= i < |before| ensures Ranked(before[i]) && Rank(before[i]) < Rank(level) {
      assert known[i] == before[i];
    }
    forall i, j | 0 <= i < j < |before| ensures Rank(before[i]) < Rank(before[j]) {
      assert known[i] == before[i] && known[j] == before[j];
    }
  }

  lemma {:induction false} KnownNamesAreTaken(known: seq<Level>)
    requires Increasing(known)
    ensures TakeAll(Names(known)) == Levels(known, [])
  {
    if known != [] {
      var before, level := known[..|known| - 1], known[|known| - 1];
      assert known == before + [level];
      LastIsNew(before, level);
      KnownNamesAreTaken(before);
      NamesGrow(before, level);
      KnownNameIsTaken(Names(before), Levels(before, []), level);
    }
  }

  lemma {:induction false} UnknownPartsAreTaken(known: seq<Level>, unknown: seq<string>)
    requires Normal(Levels(known, unknown))
    ensures TakeAll(Names(known) + unknown) == Levels(known, unknown)
  {
    var names := Names(known);
    if unknown == [] {
      KnownNamesAreTaken(known);
      assert names + unknown == names;
    } else {
      var before, u := unknown[..|unknown| - 1], unknown[|unknown| - 1];
      UnknownPartsAreTaken(known, before);
      assert unknown == before + [u];
      assert names + unknown == (names + before) + [u];
      assert u in unknown && u !in before;
      ForeignPartIsTaken(names + before, Levels(known, before), u);
    }
  }

  lemma FormatThenParse(l: Levels)
    requires Normal(l)
    ensures Parsed(Format(l)) == l
  {
    var parts := Names(l.known) + l.unknown;
    SortedStays(l.known);
    UnknownPartsAreTaken(l.known, l.unknown);
    if parts == [] {
      assert l == Levels([], []);
      assert Split("", ',') == [""] && Trim("") == "";
      assert TakeAll([""]) == Take(TakeAll([]), "");
    } else {
      forall p | p in parts ensures ',' !in p {
        if p !in l.unknown {
          var i :| 0 <= i < |l.known| && p == Name(l.known[i]);
          NameParses(l.known[i]);
        }
      }
      SplitJoin(parts, ',');
    }
  }

  /** What is written back to the database reads as what was parsed, for any text. */
  lemma ParseFormatRoundTrip(csv: string)
    ensures Normal(Parsed(csv)) && Parsed(Format(Parsed(csv))) == Parsed(csv)
  {
    ParsedIsNormal(csv);
    FormatThenParse(Parsed(csv));
  }

  // ----- clamping -----

  function Distance(a: int, b: int): nat {
    if a < b then b - a else a - b
  }

  /** The candidate a step prefers: nearer, or as near and stronger. */
  predicate Better(w: int, r: int, best: Option<Level>) {
    best.None? || Distance(r, w) < Distance(Rank(best.value), w)
    || (Distance(r, w) == Distance(Rank(best.value), w) && r > Rank(best.value))
  }

  function Best(w: int, supported: seq<Level>): Option<Level> {
    if supported == [] then None
    else
      var before, s := Best(w, supported[..|supported| - 1]), supported[|supported| - 1];
      if Ranked(s) && Better(w, Rank(s), before) then Some(s) else before
  }

  function Clamped(wanted: Level, supported: seq<Level>): Level {
    if !Ranked(wanted) then wanted else Best(Rank(wanted), supported).GetOr(wanted)
  }

  method Clamp(wanted: Level, supported: seq<Level>) returns (level: Level)
    ensures level == Clamped(wanted, supported)
  {
    if supported == [] || wanted == Unset {
      return wanted;
    }
    var w := Rank(wanted);
    if w < 0 {
      return wanted;
    }
    var best, bestDist, found := Other(""), -1, false;
    for i := 0 to |supported|
      invariant Best(w, supported[..i]) == if found then Some(best) else None
      invariant found ==> bestDist == Distance(Rank(best), w)
    {
      assert supported[..i + 1][..i] == supported[..i];
      var r := Rank(supported[i]);
      if r >= 0 {
        var d := if r - w < 0 then w - r else r - w;
        if !found || d < bestDist || (d == bestDist && r > Rank(best)) {
          best, bestDist, found := supported[i], d, true;
        }
      }
    }
    assert supported[..|supported|] == supported;
    return if found then best else wanted;
  }

  predicate HasRanked(s: seq<Level>) {
    exists l :: l in s && Ranked(l)
  }

  /** No ranked member is nearer, and none as near is stronger. */
  predicate Nearest(w: int, l: Level, supported: seq<Level>) {
    && l in supported && Ranked(l)
    && forall s :: s in supported && Ranked(s) ==>
         Distance(Rank(l), w) < Distance(Rank(s), w)
         || (Distance(Rank(l), w) == Distance(Rank(s), w) && Rank(s) <= Rank(l))
  }

  lemma {:induction false} BestIsNearest(w: int, supported: seq<Level>)
    ensures Best(w, supported).Some? <==> HasRanked(supported)
    ensures Best(w, supported).Some? ==> Nearest(w, Best(w, supported).value, supported)
  {
    if supported != [] {
      var n := |supported| - 1;
      BestIsNearest(w, supported[..n]);
      assert supported == supported[..n] + [supported[n]];
    }
  }

  /** Clamping yields the nearest ranked member, the stronger of two as near, whenever
      there is one; and only then changes what was asked for. */
  lemma ClampIsNearest(wanted: Level, supported: seq<Level>)
    requires Ranked(wanted)
    ensures if HasRanked(supported) then Nearest(Rank(wanted), Clamped(wanted, supported), supported)
            else Clamped(wanted, supported) == wanted
  {
    BestIsNearest(Rank(wanted), supported);
  }

  lemma NearestIsUnique(w: int, a: Level, b: Level, s: seq<Level>, t: seq<Level>)
    requires Nearest(w, a, s) && Nearest(w, b, t) && forall l :: l in s <==> l in t
    ensures a == b
  {
  }

  lemma ClampIgnoresOrder(wanted: Level, s: seq<Level>, t: seq<Level>)
    requires forall l :: l in s <==> l in t
    ensures Clamped(wanted, s) == Clamped(wanted, t)
  {
    if Ranked(wanted) {
      ClampIsNearest(wanted, s);
      ClampIsNearest(wanted, t);
      if HasRanked(s) {
        NearestIsUnique(Rank(wanted), Clamped(wanted, s), Clamped(wanted, t), s, t);
      }
    }
  }

  lemma ClampIsIdempotent(wanted: Level, supported: seq<Level>)
    ensures Clamped(Clamped(wanted, supported), supported) == Clamped(wanted, supported)
  {
    if Ranked(wanted) {
      ClampIsNearest(wanted, supported);
      if HasRanked(supported) {
        ClampIsNearest(Clamped(wanted, supported), supported);
      }
    }
  }

  lemma ClampIsMonotone(a: Level, b: Level, supported: seq<Level>)
    requires Ranked(a) && Ranked(b) && Rank(a) <= Rank(b)
    ensures Rank(Clamped(a, supported)) <= Rank(Clamped(b, supported))
  {
    ClampIsNearest(a, supported);
    ClampIsNearest(b, supported);
  }

  predicate Supports(wanted: Level, supported: seq<Level>) {
    wanted == Unset || supported == [] || wanted in supported
  }

  /** A level the list already has is left alone. */
  lemma ClampKeepsSupported(wanted: Level, supported: seq<Level>)
    requires Supports(wanted, supported)
    ensures Clamped(wanted, supported) == wanted
  {
    if Ranked(wanted) {
      ClampIsNearest(wanted, supported);
    }
  }

  // ----- what a request sends -----

  datatype Coarse = NoEffort | CoarseLow | CoarseMedium | CoarseHigh

  /** The three levels of the wire library. */
  function ToCoarse(l: Level): Coarse {
    match Clamped(l, KnownLevels)
    case Minimal | Low => CoarseLow
    case High | XHigh | Max => CoarseHigh
    case _ => CoarseMedium
  }

  /** Whether to think at all, and how much: "none" and unknown spellings do not ask
      for thinking. */
  function ToThinkingLevel(l: Level): Option<Coarse> {
    match l
    case Minimal | Low => Some(CoarseLow)
    case Medium => Some(CoarseMedium)
    case High | XHigh | Max => Some(CoarseHigh)
    case _ => None
  }

  /** The two tables agree wherever both have a say. */
  lemma ThinkingLevelsAgree(l: Level)
    ensures ToThinkingLevel(l) == if Ranked(l) then Some(ToCoarse(l)) else None
  {
    if Ranked(l) {
      ClampKeepsSupported(l, KnownLevels);
    }
  }

  datatype Thinking = Thinking(effortRaw: string, effort: Coarse, budget: int)

  datatype Model = Model(supportsThinking: Option<bool>, levels: seq<Level>)

  /** The parts of the client's request that decide its thinking. */
  datatype Asked = Asked(rawEffort: string, anthropicBudget: int)

  datatype Label = Blank | Text(name: string) | CoarseLabel(effort: Coarse) | Budget(tokens: int)

  class ChatRequest {
    var thinking: Option<Thinking>

    method ApplyThinkingCapability(asked: Asked, model: Option<Model>, anthropic: bool)
      modifies this
      ensures thinking == Applied(old(thinking), asked, model, anthropic)
    {
      if model.None? || thinking.None? {
        return;
      }
      var m := model.value;
      if m.supportsThinking == Some(false) {
        thinking := None;
        return;
      }
      if anthropic && asked.anthropicBudget > 0 {
        thinking := Some(Thinking("", NoEffort, asked.anthropicBudget));
        return;
      }
      if asked.rawEffort == "" {
        return;
      }
      var wanted := Parse(asked.rawEffort);
      if wanted == Unset {
        return;
      }
      var applied := wanted;
      if |m.levels| > 0 && !Supports(wanted, m.levels) {
        applied := Clamp(wanted, m.levels);
      } else {
        ClampKeepsSupported(wanted, m.levels);
      }
      if anthropic {
        thinking := Some(Thinking("", ToCoarse(applied), 0));
        return;
      }
      thinking := Some(thinking.value.(effortRaw := Name(applied), effort := NoEffort));
    }
  }

  /** What a model without a say leaves alone, and otherwise one clamped level. */
  function Applied(t: Option<Thinking>, asked: Asked, model: Option<Model>, anthropic: bool): Option<Thinking> {
    if model.None? || t.None? then t
    else if model.value.supportsThinking == Some(false) then None
    else if anthropic && asked.anthropicBudget > 0 then Some(Thinking("", NoEffort, asked.anthropicBudget))
    else if asked.rawEffort == "" || Parse(asked.rawEffort) == Unset then t
    else
      var level := Clamped(Parse(asked.rawEffort), model.value.levels);
      if anthropic then Some(Thinking("", ToCoarse(level), 0))
      else Some(t.value.(effortRaw := Name(level), effort := NoEffort))
  }

  function EffortLabel(t: Option<Thinking>): Label {
    if t.None? then Blank
    else if t.value.effortRaw != "" then Text(t.value.effortRaw)
    else if t.value.effort != NoEffort then CoarseLabel(t.value.effort)
    else if t.value.budget > 0 then Budget(t.value.budget)
    else Blank
  }

  /** A ranked level goes to a target that is not Anthropic as a member of the
      model's list, whenever that list has a ranked member, and that is what the
      usage row shows. */
  lemma SentLevelIsConfigured(t: Option<Thinking>, asked: Asked, m: Model)
    requires t.Some? && m.supportsThinking != Some(false) && HasRanked(m.levels)
    requires asked.rawEffort != "" && Ranked(Parse(asked.rawEffort))
    ensures var sent := Clamped(Parse(asked.rawEffort), m.levels);
      && Nearest(Rank(Parse(asked.rawEffort)), sent, m.levels)
      && EffortLabel(Applied(t, asked, Some(m), false)) == Text(Name(sent))
  {
    ClampIsNearest(Parse(asked.rawEffort), m.levels);
    NameParses(Clamped(Parse(asked.rawEffort), m.levels));
  }

  /** The same level as the three steps an Anthropic target knows keeps its order. */
  lemma CoarseKeepsOrder(a: Level, b: Level)
    requires Ranked(a) && Ranked(b) && Rank(a) <= Rank(b)
    ensures ToCoarse(a).CoarseHigh? ==> ToCoarse(b).CoarseHigh?
    ensures ToCoarse(b).CoarseLow? ==> ToCoarse(a).CoarseLow?
  {
    ClampKeepsSupported(a, KnownLevels);
    ClampKeepsSupported(b, KnownLevels);
  }

  /** What a request's thinking becomes: untouched where the model has no say or the
      client no readable wish; gone where the model cannot think; the client's own
      budget, or one of three steps, for Anthropic; the clamped level elsewhere. */
  lemma AppliedExactly(t: Option<Thinking>, asked: Asked, m: Option<Model>, anthropic: bool)
    ensures var r := Applied(t, asked, m, anthropic);
            var budget := anthropic && asked.anthropicBudget > 0;
            var wish := asked.rawEffort != "" && Parse(asked.rawEffort) != Unset;
      && (m.None? || t.None? ==> r == t)
      && (m.Some? && t.Some? && m.value.supportsThinking == Some(false) ==> r == None)
      && (m.Some? && t.Some? && m.value.supportsThinking != Some(false) ==>
            && (budget ==> r == Some(Thinking("", NoEffort, asked.anthropicBudget)))
            && (!budget && !wish ==> r == t)
            && (!budget && wish && anthropic ==>
                  r == Some(Thinking("", ToCoarse(Clamped(Parse(asked.rawEffort), m.value.levels)), 0)))
            && (!budget && wish && !anthropic ==>
                  r == Some(Thinking(Name(Clamped(Parse(asked.rawEffort), m.value.levels)), NoEffort, t.value.budget))))
  {
  }

  /** The three steps an Anthropic target knows, level by level. */
  lemma CoarseExactly(l: Level)
    ensures ToCoarse(l) == CoarseLow <==> l == Minimal || l == Low
    ensures ToCoarse(l) == CoarseHigh <==> l == High || l == XHigh || l == Max
    ensures ToCoarse(l) != NoEffort
  {
    if Ranked(l) {
      ClampKeepsSupported(l, KnownLevels);
    }
  }

  /** The spellings of each level, letter case and outer space aside. */
  lemma ParsesExactly(s: string)
    ensures var t := Lower(Trim(s));
      && (Parse(s) == NoThinking <==> t in {"none", "off", "disabled"})
      && (Parse(s) == Minimal <==> t in {"minimal", "min"})
      && (Parse(s) == Low <==> t == "low")
      && (Parse(s) == Medium <==> t in {"medium", "mid", "default"})
      && (Parse(s) == High <==> t == "high")
      && (Parse(s) == XHigh <==> t in {"xhigh", "x-high", "x_high", "extra_high", "very_high"})
      && (Parse(s) == Max <==> t in {"max", "maximum"})
      && !Parse(s).Other?
  {
  }
}
