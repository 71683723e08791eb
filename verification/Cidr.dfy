/** Addresses and address prefixes as the allow-list compares them (section 3.1 of
    RFC 4632): a prefix stands for all addresses that share its leading bits. */
module Cidr {
  const MAPPED := 0xFFFF

  /** An address the peer field could not be parsed into is Invalid. */
  datatype Addr = Invalid | V4(n: nat) | V6(n: nat, zone: bool)

  datatype Prefix = Prefix(width: nat, bits: nat, value: nat)

  /** The value without its `k` lowest bits. */
  function High(x: nat, k: nat): nat {
    if k == 0 then x else High(x / 2, k - 1)
  }

  function Pow2(k: nat): (p: nat)
    ensures p >= 1
  {
    if k == 0 then 1 else 2 * Pow2(k - 1)
  }

  predicate ValidPrefix(p: Prefix) {
    (p.width == 32 || p.width == 128) && p.bits <= p.width && p.value < Pow2(p.width)
  }

  type Net = p: Prefix | ValidPrefix(p) witness Prefix(32, 0, 0)

  predicate ValidAddr(a: Addr) {
    !a.Invalid? ==> a.n < Pow2(Width(a))
  }

  function Width(a: Addr): nat {
    if a.Invalid? then 0 else if a.V4? then 32 else 128
  }

  predicate Contains(p: Net, a: Addr)
  {
    && !a.Invalid? && !(a.V6? && a.zone) && Width(a) == p.width
    && High(a.n, p.width - p.bits) == High(p.value, p.width - p.bits)
  }

  function AddrIn(width: nat, n: nat): Addr {
    if width == 32 then V4(n) else V6(n, false)
  }

  /** The address a prefix is written with. */
  function AddrOf(p: Net): Addr {
    AddrIn(p.width, p.value)
  }

  lemma AddrInIs(p: Net, r: Net, n: nat)
    ensures n < Pow2(p.width) ==> ValidAddr(AddrIn(p.width, n))
    ensures Contains(r, AddrIn(p.width, n))
            <==> r.width == p.width && High(n, r.width - r.bits) == High(r.value, r.width - r.bits)
  {
  }

  /** The source's test that one prefix lies within another. */
  predicate Covers(q: Net, p: Net)
  {
    q.bits <= p.bits && Contains(q, AddrOf(p))
  }

  lemma HalvedQuotient(x: nat, d: nat)
    requires d > 0
    ensures x / (2 * d) == (x / 2) / d
  {
    var q, r := (x / 2) / d, (x / 2) % d;
    assert x / 2 == q * d + r;
    assert x == q * (2 * d) + (2 * r + x % 2) && 2 * r + x % 2 < 2 * d;
    QuotientIs(x, q, 2 * d, 2 * r + x % 2);
  }

  lemma {:induction false} NextMultiple(p: nat, q: nat, d: nat)
    ensures p < q ==> p * d + d <= q * d
    decreases q
  {
    if p < q {
      assert q * d == (q - 1) * d + d;
      NextMultiple(p, q - 1, d);
    }
  }

  lemma QuotientIs(x: nat, q: nat, d: nat, r: nat)
    requires d > 0 && r < d && x == q * d + r
    ensures x / d == q
  {
    var p := x / d;
    assert x == p * d + x % d;
    NextMultiple(p, q, d);
    NextMultiple(q, p, d);
  }

  /** Dropping the lowest bits is dividing by their power of two. */
  lemma {:induction false} HighIsQuotient(x: nat, k: nat)
    ensures High(x, k) == x / Pow2(k)
  {
    if k > 0 {
      HighIsQuotient(x / 2, k - 1);
      HalvedQuotient(x, Pow2(k - 1));
    }
  }

  /** A prefix matches the addresses of its family that agree with it but for the bits
      below; never one with a zone. */
  lemma ContainsExactly(p: Net, a: Addr)
    ensures Contains(p, a) <==>
      && ((a.V4? && p.width == 32) || (a.V6? && !a.zone && p.width == 128))
      && a.n / Pow2(p.width - p.bits) == p.value / Pow2(p.width - p.bits)
  {
    HighIsQuotient(p.value, p.width - p.bits);
    if !a.Invalid? {
      HighIsQuotient(a.n, p.width - p.bits);
    }
  }

  lemma {:induction false} HighTwice(x: nat, m: nat, n: nat)
    ensures High(High(x, m), n) == High(x, m + n)
  {
    if m > 0 {
      HighTwice(x / 2, m - 1, n);
    }
  }

  lemma {:induction false} HighShift(h: nat, k: nat)
    ensures High(h * Pow2(k), k) == h
  {
    if k > 0 {
      assert h * Pow2(k) == 2 * (h * Pow2(k - 1));
      HighShift(h, k - 1);
    }
  }

  lemma {:induction false} HighBound(x: nat, k: nat, w: nat)
    requires k <= w && x < Pow2(w)
    ensures High(x, k) < Pow2(w - k)
  {
    if k > 0 {
      HighBound(x / 2, k - 1, w - 1);
    }
  }

  lemma {:induction false} ShiftBound(h: nat, k: nat, w: nat)
    requires k <= w && h < Pow2(w - k)
    ensures h * Pow2(k) < Pow2(w)
  {
    if k > 0 {
      ShiftBound(h, k - 1, w - 1);
      assert h * Pow2(k) == 2 * (h * Pow2(k - 1));
    }
  }

  lemma {:induction false} Pow2Even(k: nat)
    requires k >= 1
    ensures Pow2(k) % 2 == 0
  {
  }

  predicate Within(p: Net, q: Net, a: Addr)
  {
    Contains(p, a) ==> Contains(q, a)
  }

  /** The other number with the same half. */
  function Other(h: nat): nat {
    if h % 2 == 0 then h + 1 else h - 1
  }

  lemma OtherStays(h: nat, bound: nat)
    requires h < bound && bound % 2 == 0
    ensures Other(h) < bound && Other(h) != h && Other(h) / 2 == h / 2
  {
  }

  /** Halving once brings the two together. */
  lemma HalvesMeet(x: nat, y: nat, k: nat, m: nat)
    requires k < m && High(x, k) / 2 == High(y, k) / 2
    ensures High(x, m) == High(y, m)
  {
    HighTwice(x, k, m - k);
    HighTwice(y, k, m - k);
  }

  /** A number of the same width that differs from `x` above bit `k`, not above `m`. */
  lemma Differing(x: nat, k: nat, m: nat, w: nat) returns (n: nat)
    requires k < m <= w && x < Pow2(w)
    ensures n < Pow2(w) && High(n, k) != High(x, k) && High(n, m) == High(x, m)
  {
    var h := High(x, k);
    HighBound(x, k, w);
    Pow2Even(w - k);
    OtherStays(h, Pow2(w - k));
    ShiftBound(Other(h), k, w);
    HighShift(Other(h), k);
    n := Other(h) * Pow2(k);
    HalvesMeet(n, x, k, m);
  }

  /** An address of `p` that differs from it in the last bit `q` looks at. */
  lemma Escapes(p: Net, q: Net) returns (a: Addr)
    requires p.bits < q.bits && Contains(q, AddrOf(p))
    ensures ValidAddr(a) && Contains(p, a) && !Contains(q, a)
  {
    AddrInIs(p, q, p.value);
    var n := Differing(p.value, q.width - q.bits, p.width - p.bits, p.width);
    a := AddrIn(p.width, n);
    AddrInIs(p, p, n);
    AddrInIs(p, q, n);
  }

  lemma ContainsItself(p: Net)
    ensures ValidAddr(AddrOf(p)) && Contains(p, AddrOf(p))
  {
  }

  /** The test decides inclusion of address sets, in both directions. */
  lemma CoversExactly(q: Net, p: Net)
    ensures Covers(q, p) <==> forall a :: ValidAddr(a) ==> Within(p, q, a)
  {
    if Covers(q, p) {
      forall a | ValidAddr(a) ensures Within(p, q, a) {
        if Contains(p, a) {
          var k, m := p.width - p.bits, q.width - q.bits;
          HighTwice(a.n, k, m - k);
          HighTwice(p.value, k, m - k);
        }
      }
    } else {
      ContainsItself(p);
      if Contains(q, AddrOf(p)) {
        var a := Escapes(p, q);
        assert !Within(p, q, a);
      } else {
        assert !Within(p, q, AddrOf(p));
      }
    }
  }

  // ----- allow-lists -----

  /** IPv6 addresses that stand for IPv4 ones; they are unwrapped before matching. */
  predicate Is4In6(a: Addr) {
    a.V6? && High(a.n, 32) == MAPPED
  }

  function Unmapped(a: Addr): Addr {
    if Is4In6(a) then V4(a.n % Pow2(32)) else a
  }

  /** Exactly the IPv6 addresses that begin with 80 zero bits and 16 one bits are
      unwrapped, to their last 32 bits. */
  lemma UnmappedExactly(a: Addr)
    ensures a.V6? && a.n / Pow2(32) == 0xFFFF ==> Unmapped(a) == V4(a.n % Pow2(32))
    ensures !(a.V6? && a.n / Pow2(32) == 0xFFFF) ==> Unmapped(a) == a
  {
    if a.V6? {
      HighIsQuotient(a.n, 32);
    }
  }

  predicate AnyContains(nets: seq<Net>, a: Addr) {
    exists p :: p in nets && Contains(p, a)
  }

  predicate Covered(nets: seq<Net>, p: Net) {
    exists q :: q in nets && Covers(q, p)
  }

  /** Every new prefix lies in a single old one. */
  predicate AllCovered(before: seq<Net>, after: seq<Net>) {
    forall p :: p in after ==> Covered(before, p)
  }

  lemma CoveredAdmitsLess(before: seq<Net>, after: seq<Net>, a: Addr)
    requires AllCovered(before, after) && ValidAddr(a) && AnyContains(after, a)
    ensures AnyContains(before, a)
  {
    var p :| p in after && Contains(p, a);
    assert Covered(before, p);
    var q :| q in before && Covers(q, p);
    CoversExactly(q, p);
    assert Within(p, q, a);
  }

  /** Some address that is looked up as itself lies in the prefix. */
  predicate Reachable(p: Net) {
    p.width == 32 || p.bits < 96 || High(p.value, 32) != MAPPED
  }

  /** A prefix inside the block of mapped addresses never matches anyone. */
  lemma ReachableExactly(p: Net)
    ensures Reachable(p) <==> exists a :: ValidAddr(a) && Contains(p, Unmapped(a))
  {
    if Reachable(p) {
      var a := AddrOf(p);
      if Is4In6(a) {
        var n := Differing(p.value, 32, 128 - p.bits, 128);
        a := V6(n, false);
      }
      assert ValidAddr(a) && Contains(p, Unmapped(a));
    } else {
      forall a | ValidAddr(a) ensures !Contains(p, Unmapped(a)) {
        if a.V6? && !Is4In6(a) && !a.zone {
          var k := 128 - p.bits;
          HighTwice(a.n, k, 32 - k);
          HighTwice(p.value, k, 32 - k);
        }
      }
    }
  }
}
