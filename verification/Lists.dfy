/** Filtering, gathering and counting in order. */
module Lists {
  import opened Options

  function Keep<T>(f: T -> bool, s: seq<T>): seq<T> {
    if s == [] then [] else Keep(f, s[..|s| - 1]) + (if f(s[|s| - 1]) then [s[|s| - 1]] else [])
  }

  lemma {:induction false} KeepOnly<T>(f: T -> bool, s: seq<T>)
    ensures forall c :: c in Keep(f, s) <==> c in s && f(c)
    ensures |Keep(f, s)| <= |s|
  {
    if s != [] {
      KeepOnly(f, s[..|s| - 1]);
      assert s == s[..|s| - 1] + [s[|s| - 1]];
    }
  }

  lemma {:induction false} KeepAll<T>(f: T -> bool, s: seq<T>)
    ensures |Keep(f, s)| == |s| ==> Keep(f, s) == s
    ensures |Keep(f, s)| < |s| ==> exists c :: c in s && !f(c)
    ensures |Keep(f, s)| <= |s|
  {
    if s != [] {
      KeepAll(f, s[..|s| - 1]);
      assert s == s[..|s| - 1] + [s[|s| - 1]];
    }
  }

  lemma {:induction false} KeepSplits<T>(f: T -> bool, a: seq<T>, b: seq<T>)
    ensures Keep(f, a + b) == Keep(f, a) + Keep(f, b)
  {
    if b == [] {
      assert a + b == a;
    } else {
      var n := |b| - 1;
      var ab := a + b;
      assert ab[..|ab| - 1] == a + b[..n] && ab[|ab| - 1] == b[n];
      KeepSplits(f, a, b[..n]);
    }
  }

  lemma {:induction false} KeepTwice<T>(f: T -> bool, g: T -> bool, both: T -> bool, s: seq<T>)
    requires forall c :: c in s ==> (both(c) <==> f(c) && g(c))
    ensures Keep(g, Keep(f, s)) == Keep(both, s)
  {
    if s != [] {
      var n := |s| - 1;
      assert s[n] in s;
      KeepTwice(f, g, both, s[..n]);
      KeepSplits(g, Keep(f, s[..n]), if f(s[n]) then [s[n]] else []);
    }
  }

  /** What the first `n` positions yield, in order. */
  function Gather<T>(pick: nat -> Option<T>, n: nat): (s: seq<T>)
    ensures |s| <= n
  {
    if n == 0 then [] else Gather(pick, n - 1) + (if pick(n - 1).Some? then [pick(n - 1).value] else [])
  }

  function Count(p: nat -> bool, n: nat): nat {
    if n == 0 then 0 else Count(p, n - 1) + (if p(n - 1) then 1 else 0)
  }

  lemma {:induction false} GatherHas<T>(pick: nat -> Option<T>, n: nat, x: T)
    ensures x in Gather(pick, n) <==> exists i :: 0 <= i < n && pick(i) == Some(x)
  {
    if n > 0 {
      GatherHas(pick, n - 1, x);
    }
  }

  /** One list is longer by exactly the extra positions. */
  lemma {:induction false} GatherCounts<T>(p: nat -> Option<T>, q: nat -> Option<T>, extra: nat -> bool, n: nat)
    requires forall i :: 0 <= i < n ==> if extra(i) then p(i).None? && q(i).Some? else p(i).Some? <==> q(i).Some?
    ensures |Gather(q, n)| == |Gather(p, n)| + Count(extra, n)
  {
    if n > 0 {
      GatherCounts(p, q, extra, n - 1);
    }
  }

  lemma {:induction false} CountsAdd(p: nat -> bool, q: nat -> bool, extra: nat -> bool, n: nat)
    requires forall i :: 0 <= i < n ==> if extra(i) then p(i) && !q(i) else p(i) <==> q(i)
    ensures Count(p, n) == Count(q, n) + Count(extra, n)
  {
    if n > 0 {
      CountsAdd(p, q, extra, n - 1);
    }
  }

  lemma {:induction false} CountZero(p: nat -> bool, n: nat)
    ensures Count(p, n) == 0 <==> forall i :: 0 <= i < n ==> !p(i)
  {
    if n > 0 {
      CountZero(p, n - 1);
    }
  }
}
