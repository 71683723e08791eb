/** Slug generation: the normal form of a provider name, and the search for a free
    variant of a slug that is taken. */
module Slugs {
  import opened Options
  import opened Text

  const MAX_SLUG_LEN := 32

  predicate IsAlnum(c: char) {
    'a' <= c <= 'z' || '0' <= c <= '9'
  }

  // ----- slugify -----

  /** Letters and digits stay, every run of anything else becomes one dash. */
  function Scan(s: string): string {
    if s == "" then ""
    else
      var b, c := Scan(s[..|s| - 1]), LowerChar(s[|s| - 1]);
      if IsAlnum(c) then b + [c]
      else if b == "" || b[|b| - 1] == '-' then b
      else b + ['-']
  }

  function TrimDashLeft(s: string): string {
    if s != "" && s[0] == '-' then TrimDashLeft(s[1..]) else s
  }

  function TrimDashRight(s: string): string {
    if s != "" && s[|s| - 1] == '-' then TrimDashRight(s[..|s| - 1]) else s
  }

  function TrimDashes(s: string): string {
    TrimDashRight(TrimDashLeft(s))
  }

  function OrProvider(s: string): string {
    if s == "" then "provider" else s
  }

  function Slugified(s: string): string {
    var slug := OrProvider(TrimDashes(Scan(s)));
    if |slug| > MAX_SLUG_LEN then OrProvider(TrimDashes(slug[..MAX_SLUG_LEN])) else slug
  }

  method Slugify(s: string) returns (slug: string)
    ensures slug == Slugified(s)
  {
    var b, prevDash := "", true;
    for i := 0 to |s|
      invariant b == Scan(s[..i])
      invariant prevDash <==> b == "" || b[|b| - 1] == '-'
    {
      assert s[..i + 1][..i] == s[..i];
      var c := LowerChar(s[i]);
      if IsAlnum(c) {
        b, prevDash := b + [c], false;
      } else if !prevDash {
        b, prevDash := b + ['-'], true;
      }
    }
    assert s[..|s|] == s;
    slug := TrimDashes(b);
    if slug == "" {
      slug := "provider";
    }
    if |slug| > MAX_SLUG_LEN {
      slug := TrimDashes(slug[..MAX_SLUG_LEN]);
      if slug == "" {
        slug := "provider";
      }
    }
  }

  predicate SlugChars(s: string) {
    forall c :: c in s ==> IsAlnum(c) || c == '-'
  }

  predicate NoDoubleDash(s: string) {
    forall i :: 0 <= i < |s| - 1 ==> !(s[i] == '-' && s[i + 1] == '-')
  }

  /** A slug in its final form. */
  predicate Shaped(s: string) {
    && 1 <= |s| <= MAX_SLUG_LEN && SlugChars(s) && NoDoubleDash(s)
    && s[0] != '-' && s[|s| - 1] != '-'
  }

  lemma {:induction false} ScanShape(s: string)
    ensures SlugChars(Scan(s)) && NoDoubleDash(Scan(s)) && (Scan(s) != "" ==> Scan(s)[0] != '-')
  {
    if s != "" {
      ScanShape(s[..|s| - 1]);
    }
  }

  lemma TrimShape(s: string)
    requires SlugChars(s) && NoDoubleDash(s) && (s != "" ==> s[0] != '-')
    ensures var t := TrimDashes(s);
      t <= s && SlugChars(t) && NoDoubleDash(t) && (t != "" ==> t[0] != '-' && t[|t| - 1] != '-')
    ensures s != "" ==> TrimDashes(s) != ""
  {
    if s != "" && s[|s| - 1] == '-' {
      assert TrimDashRight(s) == TrimDashRight(s[..|s| - 1]);
      assert s[|s| - 2] != '-';
    }
  }

  /** Every name yields a slug in final form. */
  lemma SlugifiedIsShaped(s: string)
    ensures Shaped(Slugified(s))
  {
    ScanShape(s);
    TrimShape(Scan(s));
    var slug := OrProvider(TrimDashes(Scan(s)));
    if |slug| > MAX_SLUG_LEN {
      TrimShape(slug[..MAX_SLUG_LEN]);
    }
  }

  lemma {:induction false} ScanKeepsShaped(s: string)
    requires SlugChars(s) && NoDoubleDash(s) && (s != "" ==> s[0] != '-')
    ensures Scan(s) == s
  {
    if s != "" {
      var n := |s| - 1;
      ScanKeepsShaped(s[..n]);
      assert s[n] in s;
      assert s == s[..n] + [s[n]];
      assert n > 0 ==> !(s[n - 1] == '-' && s[n] == '-');
    }
  }

  lemma ShapedStays(s: string)
    requires Shaped(s)
    ensures Slugified(s) == s
  {
    ScanKeepsShaped(s);
  }

  lemma SlugifyIsIdempotent(s: string)
    ensures Slugified(Slugified(s)) == Slugified(s)
  {
    SlugifiedIsShaped(s);
    ShapedStays(Slugified(s));
  }

  // ----- what a slug keeps of the name -----

  /** The runs of letters and digits, in lower case. */
  function Words(s: string): seq<string> {
    if s == "" then []
    else
      var before, c := Words(s[..|s| - 1]), LowerChar(s[|s| - 1]);
      if !IsAlnum(c) then before
      else if |s| > 1 && IsAlnum(LowerChar(s[|s| - 2])) && before != []
      then before[..|before| - 1] + [before[|before| - 1] + [c]]
      else before + [[c]]
  }

  lemma {:induction false} JoinMore(ws: seq<string>, w: string)
    requires ws != []
    ensures Join(ws + [w], '-') == Join(ws, '-') + ['-'] + w
  {
    if |ws| > 1 {
      assert (ws + [w])[1..] == ws[1..] + [w] && (ws + [w])[0] == ws[0];
      JoinMore(ws[1..], w);
      assert ws[0] + ['-'] + (Join(ws[1..], '-') + ['-'] + w) == ws[0] + ['-'] + Join(ws[1..], '-') + ['-'] + w;
    } else {
      assert (ws + [w])[1..] == [w];
    }
  }

  lemma Regroup(a: string, b: string, c: string)
    ensures a + (b + c) == a + b + c
  {
  }

  lemma JoinLonger(front: seq<string>, w: string, c: char)
    ensures Join(front + [w + [c]], '-') == Join(front + [w], '-') + [c]
  {
    if front == [] {
      assert front + [w + [c]] == [w + [c]] && front + [w] == [w];
    } else {
      JoinMore(front, w);
      JoinMore(front, w + [c]);
      Regroup(Join(front, '-') + ['-'], w, [c]);
    }
  }

  predicate EndsInWord(s: string) {
    s != "" && IsAlnum(LowerChar(s[|s| - 1]))
  }

  /** One character more: a word grows, a word starts, or nothing. */
  lemma WordsGrow(before: string, c: char)
    ensures var ws, ws' := Words(before), Words(before + [c]);
      if !IsAlnum(LowerChar(c)) then ws' == ws
      else if EndsInWord(before) && ws != [] then
        ws' == ws[..|ws| - 1] + [ws[|ws| - 1] + [LowerChar(c)]]
      else ws' == ws + [[LowerChar(c)]]
  {
    assert (before + [c])[..|before|] == before;
  }

  lemma ScanGrows(before: string, c: char)
    ensures var b, d := Scan(before), LowerChar(c);
      Scan(before + [c]) == if IsAlnum(d) then b + [d] else if b == "" || b[|b| - 1] == '-' then b else b + ['-']
  {
    assert (before + [c])[..|before|] == before;
  }

  /** The words joined, and one dash more if something else follows them. */
  predicate ScanTells(s: string) {
    var ws, j := Words(s), Join(Words(s), '-');
    && Scan(s) == j + (if ws != [] && !EndsInWord(s) then ['-'] else [])
    && (ws != [] ==> j != "" && j[|j| - 1] != '-')
    && (ws == [] ==> j == "" && !EndsInWord(s))
  }

  lemma ScanStep(before: string, c: char)
    requires ScanTells(before)
    ensures ScanTells(before + [c])
  {
    var ws, d := Words(before), LowerChar(c);
    WordsGrow(before, c);
    ScanGrows(before, c);
    if IsAlnum(d) {
      if ws == [] {
        assert Join([[d]], '-') == [d];
      } else if EndsInWord(before) {
        var n := |ws| - 1;
        JoinLonger(ws[..n], ws[n], d);
        assert ws[..n] + [ws[n]] == ws;
      } else {
        JoinMore(ws, [d]);
      }
    }
  }

  lemma {:induction false} ScanIsWords(s: string)
    ensures ScanTells(s)
  {
    if s != "" {
      ScanIsWords(s[..|s| - 1]);
      ScanStep(s[..|s| - 1], s[|s| - 1]);
      assert s[..|s| - 1] + [s[|s| - 1]] == s;
    }
  }

  lemma TrimTail(j: string)
    requires j != "" && j[0] != '-' && j[|j| - 1] != '-'
    ensures TrimDashes(j) == j && TrimDashes(j + ['-']) == j
  {
    assert (j + ['-'])[..|j|] == j;
  }

  /** A slug is the name's words in lower case with single dashes between them, cut to 32
      characters but not after a dash; a name without words becomes "provider". */
  lemma SlugifiedExactly(s: string)
    ensures var j := Join(Words(s), '-');
      Slugified(s) == if Words(s) == [] then "provider"
                      else if |j| <= 32 then j
                      else if j[31] == '-' then j[..31] else j[..32]
  {
    var j := Join(Words(s), '-');
    ScanIsWords(s);
    ScanShape(s);
    if Words(s) != [] {
      assert j[0] == Scan(s)[0];
      TrimTail(j);
      assert OrProvider(TrimDashes(Scan(s))) == j;
      if |j| > 32 {
        CutTail(Scan(s), j);
        assert |TrimDashes(j[..MAX_SLUG_LEN])| >= 31;
      }
    }
  }

  lemma CutTail(s: string, j: string)
    requires j <= s && NoDoubleDash(s) && |j| > 32 && j[0] != '-'
    ensures TrimDashes(j[..32]) == if j[31] == '-' then j[..31] else j[..32]
  {
    if j[31] == '-' {
      assert j[30] == s[30] && j[31] == s[31];
      assert j[..32] == j[..31] + ['-'];
      TrimTail(j[..31]);
    } else {
      TrimTail(j[..32]);
    }
  }

  // ----- decimal suffixes -----

  function Digit(n: nat): char
    requires n < 10
  {
    ('0' as int + n) as char
  }

  function Decimal(n: nat): (s: string)
    ensures s != ""
  {
    if n < 10 then [Digit(n)] else Decimal(n / 10) + [Digit(n % 10)]
  }

  function ValueOf(s: string): int {
    if s == "" then 0 else ValueOf(s[..|s| - 1]) * 10 + (s[|s| - 1] as int - '0' as int)
  }

  lemma {:induction false} DecimalValue(n: nat)
    ensures ValueOf(Decimal(n)) == n
    ensures forall c :: c in Decimal(n) ==> '0' <= c <= '9'
  {
    if n < 10 {
      assert ValueOf("") == 0;
      assert Decimal(n)[..0] == "";
    } else {
      DecimalValue(n / 10);
      assert Decimal(n)[..|Decimal(n)| - 1] == Decimal(n / 10);
    }
  }

  function Suffix(i: nat): string {
    ['-'] + Decimal(i)
  }

  function AfterLastDash(s: string): string {
    if s == "" || s[|s| - 1] == '-' then "" else AfterLastDash(s[..|s| - 1]) + [s[|s| - 1]]
  }

  lemma {:induction false} DigitsAfterDash(p: string, d: string)
    requires '-' !in d
    ensures AfterLastDash(p + ['-'] + d) == d
  {
    var s := p + ['-'] + d;
    if d != "" {
      var n := |d| - 1;
      assert s[..|s| - 1] == p + ['-'] + d[..n] && s[|s| - 1] == d[n] && d[n] in d;
      DigitsAfterDash(p, d[..n]);
    }
  }

  /** Whatever comes before it, a suffix can be read back: its dash is the last one. */
  lemma SuffixReadsBack(p: string, i: nat)
    ensures ValueOf(AfterLastDash(p + Suffix(i))) == i
  {
    DecimalValue(i);
    DigitsAfterDash(p, Decimal(i));
    assert p + Suffix(i) == p + ['-'] + Decimal(i);
  }

  lemma SuffixesDiffer(p: string, q: string, i: nat, j: nat)
    requires i != j
    ensures p + Suffix(i) != q + Suffix(j)
  {
    SuffixReadsBack(p, i);
    SuffixReadsBack(q, j);
  }

  function PowerOfTen(k: nat): nat {
    if k == 0 then 1 else 10 * PowerOfTen(k - 1)
  }

  lemma {:induction false} DecimalLength(n: nat, k: nat)
    requires k >= 1 && n < PowerOfTen(k)
    ensures |Decimal(n)| <= k
  {
    assert PowerOfTen(1) == 10 * PowerOfTen(0) == 10;
    if n >= 10 {
      DecimalLength(n / 10, k - 1);
    }
  }

  /** The counter is a 64-bit integer, which never needs more than 19 digits. */
  const MAX_INT := 0x7FFF_FFFF_FFFF_FFFF

  lemma SuffixLength(i: nat)
    requires i <= MAX_INT
    ensures 2 <= |Suffix(i)| <= 20
  {
    assert PowerOfTen(19) == 10_000_000_000_000_000_000 by {
      assert PowerOfTen(5) == 100_000;
      assert PowerOfTen(10) == 10_000_000_000;
      assert PowerOfTen(15) == 1_000_000_000_000_000;
    }
    DecimalLength(i, 19);
  }

  // ----- the search for a free name -----

  /** Distinct names 2..n, all of them taken, are no more than the taken names. */
  lemma {:induction false} TriedAreFew(taken: set<string>, name: nat -> string, n: nat)
    requires n >= 2
    requires forall i :: 2 <= i < n ==> name(i) in taken
    requires forall i, j :: 2 <= i < j < n ==> name(i) != name(j)
    ensures n - 2 <= |taken|
  {
    if n > 2 {
      var last := name(n - 1);
      TriedAreFew(taken - {last}, name, n - 1);
    }
  }

  /** The import's search: base, base-2, base-3, and so on. */
  function Numbered(base: string, i: nat): string {
    base + Suffix(i)
  }

  lemma NumberedAreFew(taken: set<string>, base: string, n: nat)
    requires n >= 2 && forall i :: 2 <= i < n ==> Numbered(base, i) in taken
    ensures n - 2 <= |taken|
  {
    var name := (i: nat) => Numbered(base, i);
    forall i, j | 2 <= i < j < n ensures name(i) != name(j) {
      SuffixesDiffer(base, base, i, j);
    }
    TriedAreFew(taken, name, n);
  }

  /** The first free name from `i` on. */
  function FirstFree(taken: set<string>, base: string, i: nat): string
    requires i >= 2 && forall k :: 2 <= k < i ==> Numbered(base, k) in taken
    decreases |taken| + 2 - i
  {
    NumberedAreFew(taken, base, i);
    if Numbered(base, i) !in taken then Numbered(base, i)
    else
      NumberedAreFew(taken, base, i + 1);
      FirstFree(taken, base, i + 1)
  }

  function FreeSlug(taken: set<string>, base: string): string {
    if base !in taken then base else FirstFree(taken, base, 2)
  }

  /** The search ends, and its result is free and as early as possible. */
  method UniqueSlug(taken: set<string>, base: string) returns (slug: string)
    ensures slug == FreeSlug(taken, base) && slug !in taken
    ensures slug == base || exists i :: 2 <= i <= |taken| + 2 && slug == Numbered(base, i)
                                        && base in taken && forall k :: 2 <= k < i ==> Numbered(base, k) in taken
  {
    if base !in taken {
      return base;
    }
    var i := 2;
    while Numbered(base, i) in taken
      invariant i >= 2 && forall k :: 2 <= k < i ==> Numbered(base, k) in taken
      invariant FirstFree(taken, base, 2) == FirstFree(taken, base, i)
      decreases |taken| + 2 - i
    {
      NumberedAreFew(taken, base, i + 1);
      i := i + 1;
    }
    NumberedAreFew(taken, base, i);
    slug := Numbered(base, i);
  }

  lemma {:induction false} FirstFreeIsFree(taken: set<string>, base: string, i: nat)
    requires i >= 2 && forall k :: 2 <= k < i ==> Numbered(base, k) in taken
    ensures FirstFree(taken, base, i) !in taken
    decreases |taken| + 2 - i
  {
    NumberedAreFew(taken, base, i);
    if Numbered(base, i) in taken {
      NumberedAreFew(taken, base, i + 1);
      FirstFreeIsFree(taken, base, i + 1);
    }
  }

  lemma FreeSlugIsFree(taken: set<string>, base: string)
    ensures FreeSlug(taken, base) !in taken
  {
    if base in taken {
      FirstFreeIsFree(taken, base, 2);
    }
  }

  // ----- the provider form's search, which keeps the length bound -----

  /** The hexadecimal digest of base and counter, as far as it is used. */
  ghost predicate GoodDigest(digest: nat -> string) {
    && (forall i :: 2 <= i <= MAX_INT ==>
          |digest(i)| == MAX_SLUG_LEN - 2 && forall c :: c in digest(i) ==> IsAlnum(c))
    && (forall i, j :: 2 <= i < j <= MAX_INT ==> digest(i) != digest(j))
  }

  function Candidate(base: string, digest: nat -> string, i: nat): string
    requires 1 <= |base| <= MAX_SLUG_LEN && 2 <= i <= MAX_INT
  {
    SuffixLength(i);
    var next := base + Suffix(i);
    if |next| <= MAX_SLUG_LEN then next
    else
      var cut := base[..MAX_SLUG_LEN - |Suffix(i)|] + Suffix(i);
      if |cut| > |base| then base[..1] + ['-'] + digest(i) else cut
  }

  /** The number goes after the name where it fits, cuts a name of full length, and gives
      way to the digest behind the first character in between. */
  lemma CandidateTells(base: string, digest: nat -> string, i: nat)
    requires 1 <= |base| <= MAX_SLUG_LEN && 2 <= i <= MAX_INT
    ensures var number := "-" + Decimal(i); var c := Candidate(base, digest, i);
      && (|base| + |number| <= 32 ==> c == base + number)
      && (|base| == 32 ==> |number| < 32 && c == base[..32 - |number|] + number)
      && (|base| < 32 && |base| + |number| > 32 ==> c == base[..1] + "-" + digest(i))
  {
    SuffixLength(i);
  }

  lemma CandidateFits(base: string, digest: nat -> string, i: nat)
    requires 1 <= |base| <= MAX_SLUG_LEN && 2 <= i <= MAX_INT && GoodDigest(digest)
    ensures 1 <= |Candidate(base, digest, i)| <= MAX_SLUG_LEN
    ensures SlugChars(base) ==> SlugChars(Candidate(base, digest, i))
  {
    SuffixLength(i);
    DecimalValue(i);
  }

  /** Cut, numbered or hashed, two candidates never coincide. */
  lemma CandidatesDiffer(base: string, digest: nat -> string, i: nat, j: nat)
    requires 1 <= |base| <= MAX_SLUG_LEN && 2 <= i < j <= MAX_INT && GoodDigest(digest)
    ensures Candidate(base, digest, i) != Candidate(base, digest, j)
  {
    SuffixLength(i);
    SuffixLength(j);
    var a, b := Candidate(base, digest, i), Candidate(base, digest, j);
    if |base| == MAX_SLUG_LEN {
      SuffixesDiffer(base[..MAX_SLUG_LEN - |Suffix(i)|], base[..MAX_SLUG_LEN - |Suffix(j)|], i, j);
    } else if |base + Suffix(i)| > MAX_SLUG_LEN {
      if |base + Suffix(j)| > MAX_SLUG_LEN {
        assert a == base[..1] + ['-'] + digest(i) && b == base[..1] + ['-'] + digest(j);
        assert a[2..] == digest(i) && b[2..] == digest(j);
      } else {
        NumberIsNoHash(base, digest, i, j);
      }
    } else if |base + Suffix(j)| > MAX_SLUG_LEN {
      NumberIsNoHash(base, digest, j, i);
    } else {
      SuffixesDiffer(base, base, i, j);
    }
  }

  lemma NumberIsNoHash(base: string, digest: nat -> string, i: nat, j: nat)
    requires 1 <= |base| < MAX_SLUG_LEN && 2 <= i <= MAX_INT && j <= MAX_INT && GoodDigest(digest)
    ensures base + Suffix(j) != base[..1] + ['-'] + digest(i)
  {
    SuffixLength(j);
    var s, h := base + Suffix(j), base[..1] + ['-'] + digest(i);
    if |base| > 1 {
      assert digest(i)[|base| - 2] in digest(i);
      assert s[|base|] == '-' && h[|base|] == digest(i)[|base| - 2];
    }
  }

  lemma CandidatesAreFew(taken: set<string>, base: string, digest: nat -> string, n: nat)
    requires 1 <= |base| <= MAX_SLUG_LEN && 2 <= n <= MAX_INT + 1 && GoodDigest(digest)
    requires forall i :: 2 <= i < n ==> Candidate(base, digest, i) in taken
    ensures n - 2 <= |taken|
  {
    var name := (i: nat) => if 2 <= i <= MAX_INT then Candidate(base, digest, i) else "";
    forall i, j | 2 <= i < j < n ensures name(i) != name(j) {
      CandidatesDiffer(base, digest, i, j);
    }
    TriedAreFew(taken, name, n);
  }

  /** Ends with a free slug of legal length unless a lookup fails; `ok` says which of
      the lookups succeed. */
  method UniqueProviderSlug(taken: set<string>, base: string, digest: nat -> string, ok: nat -> bool)
    returns (slug: Option<string>)
    requires 1 <= |base| <= MAX_SLUG_LEN && GoodDigest(digest) && |taken| + 2 <= MAX_INT
    ensures (forall k :: ok(k)) ==> slug.Some?
    ensures slug.Some? ==> slug.value !in taken && 1 <= |slug.value| <= MAX_SLUG_LEN
    ensures slug.Some? && SlugChars(base) ==> SlugChars(slug.value)
    ensures base !in taken && ok(0) ==> slug == Some(base)
    ensures slug.Some? && slug.value != base ==>
      base in taken && exists i :: 2 <= i <= MAX_INT && slug.value == Candidate(base, digest, i)
                                   && forall k :: 2 <= k < i ==> Candidate(base, digest, k) in taken
  {
    var cur, i := base, 2;
    while ok(i - 2) && cur in taken
      invariant 2 <= i <= |taken| + 3
      invariant forall k :: 2 <= k < i - 1 ==> Candidate(base, digest, k) in taken
      invariant if i == 2 then cur == base else cur == Candidate(base, digest, i - 1)
      invariant i > 2 ==> base in taken
      decreases |taken| + 4 - i
    {
      CandidatesAreFew(taken, base, digest, i);
      cur := Candidate(base, digest, i);
      i := i + 1;
    }
    if i > 2 {
      CandidateFits(base, digest, i - 1);
    }
    slug := if ok(i - 2) then Some(cur) else None;
  }
}
