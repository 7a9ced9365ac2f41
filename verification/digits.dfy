/** Fixed-width big-endian digits in any base. Base 256 gives the LMDB keys, base 16 the
    printed ids and base 10 the fields of a timestamp. */
module Digits {

  function Pow(base: nat, e: nat): (p: nat)
    ensures base > 0 ==> p > 0
  {
    if e == 0 then 1 else base * Pow(base, e - 1)
  }

  /** The last `width` digits of `n`, most significant first. */
  function Encode(base: nat, n: nat, width: nat): (ds: seq<nat>)
    requires base > 0
    ensures |ds| == width && forall i :: 0 <= i < width ==> ds[i] < base
    decreases width
  {
    if width == 0 then [] else Encode(base, n / base, width - 1) + [n % base]
  }

  function Value(base: nat, ds: seq<nat>): nat {
    if ds == [] then 0 else Value(base, ds[..|ds| - 1]) * base + ds[|ds| - 1]
  }

  ghost predicate AllBelow(base: nat, ds: seq<nat>) {
    forall i :: 0 <= i < |ds| ==> ds[i] < base
  }

  lemma {:induction false} EncodeThenValue(base: nat, n: nat, width: nat)
    requires base > 0 && n < Pow(base, width)
    ensures Value(base, Encode(base, n, width)) == n
    decreases width
  {
    if width > 0 {
      var q := n / base;
      QuotientBelow(base, n, Pow(base, width - 1));
      EncodeThenValue(base, q, width - 1);
      LastDigit(base, n, width);
      QuotientAndRest(base, n);
    }
  }

  lemma QuotientAndRest(base: nat, n: nat)
    requires base > 0
    ensures n == (n / base) * base + n % base
  {
  }

  lemma LastDigit(base: nat, n: nat, width: nat)
    requires base > 0 && width > 0
    ensures Value(base, Encode(base, n, width)) == Value(base, Encode(base, n / base, width - 1)) * base + n % base
  {
    ValueOfLast(base, Encode(base, n / base, width - 1), n % base);
  }

  lemma ValueOfLast(base: nat, ds: seq<nat>, d: nat)
    ensures Value(base, ds + [d]) == Value(base, ds) * base + d
  {
    assert (ds + [d])[..|ds|] == ds;
  }

  lemma MultipleAtLeast(k: nat, base: nat)
    ensures k >= 1 ==> k * base >= base
  {
  }

  /** Quotient and remainder are determined by n == q * base + r with r < base. */
  lemma UniqueQuotient(base: nat, q: nat, r: nat, q': nat, r': nat)
    requires r < base && r' < base && q * base + r == q' * base + r'
    ensures q == q' && r == r'
  {
    if q > q' {
      assert (q - q') * base == r' - r;
      MultipleAtLeast(q - q', base);
    } else {
      assert (q' - q) * base == r - r';
      MultipleAtLeast(q' - q, base);
    }
  }

  lemma DivideBack(base: nat, q: nat, r: nat)
    requires r < base
    ensures (q * base + r) / base == q && (q * base + r) % base == r
  {
    var n := q * base + r;
    assert n == (n / base) * base + n % base;
    UniqueQuotient(base, q, r, n / base, n % base);
  }

  lemma QuotientBelow(base: nat, n: nat, p: nat)
    requires base > 0 && n < base * p
    ensures n / base < p
  {
    assert n == (n / base) * base + n % base;
    assert (n / base) * base < p * base;
    SmallerFactor(n / base, p, base);
  }

  lemma SmallerFactor(a: nat, b: nat, base: nat)
    requires a * base < b * base
    ensures a < b
  {
  }

  lemma {:induction false} ValueThenEncode(base: nat, ds: seq<nat>)
    requires base > 0 && AllBelow(base, ds)
    ensures Encode(base, Value(base, ds), |ds|) == ds
    ensures Value(base, ds) < Pow(base, |ds|)
  {
    if ds != [] {
      var front, last := ds[..|ds| - 1], ds[|ds| - 1];
      ValueThenEncode(base, front);
      DivideBack(base, Value(base, front), last);
      assert ds == front + [last];
      BelowProduct(base, Value(base, front), last, Pow(base, |front|));
    }
  }

  lemma BelowProduct(base: nat, q: nat, r: nat, p: nat)
    requires r < base && q < p
    ensures q * base + r < base * p
  {
    assert (q + 1) * base <= p * base;
  }

  // ----- order

  /** Byte-string order: first difference decides, a proper prefix comes first. */
  predicate LexLeq(a: seq<nat>, b: seq<nat>) {
    if a == [] then true
    else if b == [] then false
    else a[0] < b[0] || (a[0] == b[0] && LexLeq(a[1..], b[1..]))
  }

  lemma {:induction false} ValueOfHead(base: nat, d: nat, ds: seq<nat>)
    ensures Value(base, [d] + ds) == d * Pow(base, |ds|) + Value(base, ds)
  {
    var all := [d] + ds;
    if ds == [] {
      assert all[..0] == [];
    } else {
      var front, last := ds[..|ds| - 1], ds[|ds| - 1];
      assert all[..|all| - 1] == [d] + front;
      ValueOfHead(base, d, front);
      var p := Pow(base, |front|);
      assert (d * p + Value(base, front)) * base == d * (base * p) + Value(base, front) * base;
    }
  }

  lemma HeadDecides(d: nat, e: nat, p: nat, v: nat, w: nat)
    requires d < e && v < p
    ensures d * p + v < e * p + w
  {
    MultipleAtLeast(e - d, p);
    assert (e - d) * p == e * p - d * p;
  }

  /** Equal-width digit strings sort as the numbers they stand for. */
  lemma {:induction false} OrderIsNumeric(base: nat, a: seq<nat>, b: seq<nat>)
    requires base > 0 && |a| == |b| && AllBelow(base, a) && AllBelow(base, b)
    ensures LexLeq(a, b) <==> Value(base, a) <= Value(base, b)
    decreases |a|
  {
    if a != [] {
      var p, v, w := Pow(base, |a| - 1), Value(base, a[1..]), Value(base, b[1..]);
      assert a == [a[0]] + a[1..] && b == [b[0]] + b[1..];
      ValueOfHead(base, a[0], a[1..]);
      ValueOfHead(base, b[0], b[1..]);
      ValueThenEncode(base, a[1..]);
      ValueThenEncode(base, b[1..]);
      OrderIsNumeric(base, a[1..], b[1..]);
      if a[0] < b[0] {
        HeadDecides(a[0], b[0], p, v, w);
      } else if a[0] > b[0] {
        HeadDecides(b[0], a[0], p, w, v);
      }
    }
  }
}
