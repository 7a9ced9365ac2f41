/** The library sort: a sorted permutation under a total preorder, and the fact that two
    permutations of elements the order tells apart sort to the same sequence. */
module Sorting {

  ghost predicate TotalPreorder<T(!new)>(leq: (T, T) -> bool) {
    && (forall x, y :: leq(x, y) || leq(y, x))
    && (forall x, y, z :: leq(x, y) && leq(y, z) ==> leq(x, z))
  }

  ghost predicate PairInOrder<T>(leq: (T, T) -> bool, s: seq<T>, i: nat, j: nat) {
    i < j < |s| ==> leq(s[i], s[j])
  }

  ghost predicate Sorted<T>(leq: (T, T) -> bool, s: seq<T>) {
    forall i: nat, j: nat {:trigger PairInOrder(leq, s, i, j)} :: PairInOrder(leq, s, i, j)
  }

  lemma SortedCons<T>(leq: (T, T) -> bool, x: T, s: seq<T>)
    requires Sorted(leq, s) && forall j :: 0 <= j < |s| ==> leq(x, s[j])
    ensures Sorted(leq, [x] + s)
  {
    forall i: nat, j: nat ensures PairInOrder(leq, [x] + s, i, j) {
      if i > 0 {
        assert j > 0 ==> PairInOrder(leq, s, i - 1, j - 1);
      }
    }
  }

  lemma SortedTail<T>(leq: (T, T) -> bool, s: seq<T>)
    requires Sorted(leq, s) && s != []
    ensures Sorted(leq, s[1..]) && forall j :: 0 < j < |s| ==> leq(s[0], s[j])
  {
    forall i: nat, j: nat ensures PairInOrder(leq, s[1..], i, j) {
      assert PairInOrder(leq, s, i + 1, j + 1);
    }
    forall j | 0 < j < |s| ensures leq(s[0], s[j]) {
      assert PairInOrder(leq, s, 0, j);
    }
  }

  ghost predicate Distinguishes<T>(leq: (T, T) -> bool, s: multiset<T>) {
    forall x, y :: x in s && y in s && leq(x, y) && leq(y, x) ==> x == y
  }

  function Insert<T(!new)>(leq: (T, T) -> bool, x: T, s: seq<T>): (r: seq<T>)
    requires TotalPreorder(leq) && Sorted(leq, s)
    ensures Sorted(leq, r) && multiset(r) == multiset(s) + multiset{x}
  {
    if s == [] then [x]
    else if leq(x, s[0]) then
      SortedTail(leq, s);
      SortedCons(leq, x, s);
      [x] + s
    else
      SortedTail(leq, s);
      var r := Insert(leq, x, s[1..]);
      InsertBehindHead(leq, x, s, r);
      [s[0]] + r
  }

  lemma InsertBehindHead<T(!new)>(leq: (T, T) -> bool, x: T, s: seq<T>, r: seq<T>)
    requires s != [] && Sorted(leq, s) && leq(s[0], x)
    requires Sorted(leq, r) && multiset(r) == multiset(s[1..]) + multiset{x}
    ensures Sorted(leq, [s[0]] + r) && multiset([s[0]] + r) == multiset(s) + multiset{x}
  {
    assert s == [s[0]] + s[1..];
    SortedTail(leq, s);
    forall j | 0 <= j < |r| ensures leq(s[0], r[j]) {
      assert r[j] in multiset(r);
      assert r[j] == x || r[j] in multiset(s[1..]);
    }
    SortedCons(leq, s[0], r);
  }

  function Sort<T(!new)>(leq: (T, T) -> bool, s: seq<T>): (r: seq<T>)
    requires TotalPreorder(leq)
    ensures Sorted(leq, r) && multiset(r) == multiset(s) && |r| == |s|
  {
    if s == [] then []
    else
      assert s == [s[0]] + s[1..];
      var r := Insert(leq, s[0], Sort(leq, s[1..]));
      assert |multiset(r)| == |multiset(s)|;
      r
  }

  lemma {:induction false} SortedUnique<T(!new)>(leq: (T, T) -> bool, a: seq<T>, b: seq<T>)
    requires Sorted(leq, a) && Sorted(leq, b) && multiset(a) == multiset(b)
    requires Distinguishes(leq, multiset(a))
    ensures a == b
  {
    assert |a| == |multiset(a)| == |multiset(b)| == |b|;
    if a != [] {
      HeadsAgree(leq, a, b);
      TailKeeps(leq, a);
      TailKeeps(leq, b);
      SortedUnique(leq, a[1..], b[1..]);
      SameHeadAndTail(a, b);
    }
  }

  lemma SameHeadAndTail<T>(a: seq<T>, b: seq<T>)
    requires a != [] && b != [] && a[0] == b[0] && a[1..] == b[1..]
    ensures a == b
  {
    assert a == [a[0]] + a[1..] && b == [b[0]] + b[1..];
  }

  lemma TailKeeps<T(!new)>(leq: (T, T) -> bool, s: seq<T>)
    requires Sorted(leq, s) && Distinguishes(leq, multiset(s)) && s != []
    ensures Sorted(leq, s[1..]) && multiset(s[1..]) == multiset(s) - multiset{s[0]}
    ensures Distinguishes(leq, multiset(s[1..]))
  {
    TailMultiset(s);
    SortedTail(leq, s);
    forall x, y | x in multiset(s[1..]) && y in multiset(s[1..]) && leq(x, y) && leq(y, x) ensures x == y {
      assert x in multiset(s) && y in multiset(s);
    }
  }

  lemma HeadsAgree<T(!new)>(leq: (T, T) -> bool, a: seq<T>, b: seq<T>)
    requires Sorted(leq, a) && Sorted(leq, b) && multiset(a) == multiset(b)
    requires Distinguishes(leq, multiset(a)) && a != [] && b != []
    ensures a[0] == b[0]
  {
    assert a[0] in multiset(b) && b[0] in multiset(a);
    FirstIsLeast(leq, a, b[0]);
    FirstIsLeast(leq, b, a[0]);
  }

  lemma TailMultiset<T>(s: seq<T>)
    requires s != []
    ensures multiset(s[1..]) == multiset(s) - multiset{s[0]}
  {
    assert s == [s[0]] + s[1..];
  }

  lemma FirstIsLeast<T(!new)>(leq: (T, T) -> bool, s: seq<T>, x: T)
    requires Sorted(leq, s) && x in multiset(s)
    ensures s[0] == x || leq(s[0], x)
  {
    var i :| 0 <= i < |s| && s[i] == x;
    assert PairInOrder(leq, s, 0, i);
  }

  /** The order of the input does not matter. */
  lemma SortPermutation<T(!new)>(leq: (T, T) -> bool, a: seq<T>, b: seq<T>)
    requires TotalPreorder(leq) && multiset(a) == multiset(b) && Distinguishes(leq, multiset(a))
    ensures Sort(leq, a) == Sort(leq, b)
  {
    SortedUnique(leq, Sort(leq, a), Sort(leq, b));
  }

  function RemoveAt<T>(s: seq<T>, i: nat): seq<T>
    requires i < |s|
  {
    s[..i] + s[i + 1..]
  }

  lemma RemoveAtMultiset<T>(s: seq<T>, i: nat)
    requires i < |s|
    ensures multiset(RemoveAt(s, i)) == multiset(s) - multiset{s[i]}
  {
    assert s == s[..i] + [s[i]] + s[i + 1..];
  }

  /** Dropping the last element of one permutation, and that element from the other, leaves
      permutations. */
  lemma PermutationStep<T>(a: seq<T>, b: seq<T>) returns (i: nat)
    requires a != [] && multiset(a) == multiset(b)
    ensures i < |b| && b[i] == a[|a| - 1]
    ensures multiset(a[..|a| - 1]) == multiset(RemoveAt(b, i))
  {
    var front, last := a[..|a| - 1], a[|a| - 1];
    assert a == front + [last];
    assert last in multiset(b);
    i :| 0 <= i < |b| && b[i] == last;
    RemoveAtMultiset(b, i);
    assert multiset(a) == multiset(front) + multiset{last};
  }

  ghost predicate NoRepeats<T>(s: seq<T>) {
    forall i, j :: 0 <= i < j < |s| ==> s[i] != s[j]
  }

  lemma TwiceInMultiset<T>(s: seq<T>, i: nat, j: nat)
    requires i < j < |s| && s[i] == s[j]
    ensures multiset(s)[s[i]] >= 2
  {
    assert s == s[..i] + [s[i]] + s[i + 1..j] + [s[j]] + s[j + 1..];
  }

  /** Two repetition-free listings of the same elements are permutations. */
  lemma ListingsArePermutations<T>(a: seq<T>, b: seq<T>)
    requires NoRepeats(a) && NoRepeats(b) && forall x :: x in a <==> x in b
    ensures multiset(a) == multiset(b)
  {
    forall x ensures multiset(a)[x] == multiset(b)[x] {
      OnceEach(a, x);
      OnceEach(b, x);
    }
  }

  lemma {:induction false} OnceEach<T>(s: seq<T>, x: T)
    requires NoRepeats(s)
    ensures multiset(s)[x] == if x in s then 1 else 0
  {
    if s != [] {
      assert s == [s[0]] + s[1..];
      OnceEach(s[1..], x);
    }
  }

  lemma NoRepeatsConcat<T>(a: seq<T>, b: seq<T>)
    requires NoRepeats(a) && NoRepeats(b) && forall x :: x in a ==> x !in b
    ensures NoRepeats(a + b)
  {
    forall i, j | 0 <= i < j < |a + b| ensures (a + b)[i] != (a + b)[j] {
      if i < |a| <= j {
        assert a[i] !in b && b[j - |a|] in b;
      }
    }
  }

  function Members<T>(s: seq<T>): set<T> {
    set x | x in s
  }

  lemma MembersConcat<T>(a: seq<T>, b: seq<T>)
    ensures Members(a + b) == Members(a) + Members(b)
  {
  }

  lemma MembersAppend<T>(s: seq<T>, x: T)
    ensures Members(s + [x]) == Members(s) + {x}
  {
  }

  lemma {:induction false} MembersBound<T>(s: seq<T>)
    ensures |Members(s)| <= |s|
  {
    if s == [] {
      assert Members(s) == {};
    } else {
      MembersBound(s[1..]);
      assert Members(s) == Members(s[1..]) + {s[0]};
    }
  }

  /** The elements of a set, in one fixed order. */
  ghost function Listing<T>(s: set<T>): (ids: seq<T>)
    ensures NoRepeats(ids) && Members(ids) == s
  {
    if s == {} then []
    else
      var x :| x in s;
      var front := Listing(s - {x});
      assert forall y :: y in front ==> y in Members(front);
      NoRepeatsConcat(front, [x]);
      MembersAppend(front, x);
      front + [x]
  }

  lemma SameMembers<T>(a: seq<T>, b: seq<T>)
    requires multiset(a) == multiset(b)
    ensures Members(a) == Members(b)
  {
    forall x ensures x in a <==> x in b {
      assert x in a <==> x in multiset(a);
      assert x in b <==> x in multiset(b);
    }
  }

  lemma PermutationKeepsListing<T>(a: seq<T>, b: seq<T>)
    requires multiset(a) == multiset(b) && NoRepeats(a)
    ensures NoRepeats(b) && Members(a) == Members(b) && |a| == |b|
  {
    assert |multiset(a)| == |multiset(b)|;
    forall x ensures x in a <==> x in b {
      assert x in a <==> x in multiset(a);
      assert x in b <==> x in multiset(b);
    }
    forall i, j | 0 <= i < j < |b| ensures b[i] != b[j] {
      if b[i] == b[j] {
        TwiceInMultiset(b, i, j);
        OnceEach(a, b[i]);
        assert false;
      }
    }
  }

  // ----- element-wise images

  /** What `f` makes of each element, one after the other. */
  function FlatMap<T, U>(f: T -> seq<U>, s: seq<T>): seq<U> {
    if s == [] then [] else FlatMap(f, s[..|s| - 1]) + f(s[|s| - 1])
  }

  lemma FlatMapAppend<T, U>(f: T -> seq<U>, s: seq<T>, x: T)
    ensures FlatMap(f, s + [x]) == FlatMap(f, s) + f(x)
  {
    assert (s + [x])[..|s|] == s;
  }

  lemma AppendLast<T>(a: seq<T>, b: seq<T>, x: T)
    ensures a + (b + [x]) == (a + b) + [x]
  {
  }

  lemma FlatMapConcatStep<T, U>(f: T -> seq<U>, a: seq<T>, front: seq<T>, last: T)
    requires FlatMap(f, a + front) == FlatMap(f, a) + FlatMap(f, front)
    ensures FlatMap(f, a + (front + [last])) == FlatMap(f, a) + FlatMap(f, front + [last])
  {
    AppendLast(a, front, last);
    FlatMapAppend(f, a + front, last);
    FlatMapAppend(f, front, last);
    assert FlatMap(f, a) + FlatMap(f, front) + f(last) == FlatMap(f, a) + (FlatMap(f, front) + f(last));
  }

  lemma {:induction false} FlatMapConcat<T, U>(f: T -> seq<U>, a: seq<T>, b: seq<T>)
    ensures FlatMap(f, a + b) == FlatMap(f, a) + FlatMap(f, b)
  {
    if b == [] {
      assert a + b == a;
    } else {
      FlatMapConcat(f, a, b[..|b| - 1]);
      FlatMapConcatStep(f, a, b[..|b| - 1], b[|b| - 1]);
      assert b == b[..|b| - 1] + [b[|b| - 1]];
    }
  }

  lemma MiddleOut<T>(a: seq<T>, b: seq<T>, c: seq<T>)
    ensures multiset(a + b + c) == multiset(a + c) + multiset(b)
  {
  }

  lemma FlatMapMiddle<T, U>(f: T -> seq<U>, a: seq<T>, x: T, c: seq<T>)
    ensures multiset(FlatMap(f, (a + [x]) + c)) == multiset(FlatMap(f, a + c)) + multiset(f(x))
  {
    FlatMapConcat(f, a + [x], c);
    FlatMapAppend(f, a, x);
    FlatMapConcat(f, a, c);
    MiddleOut(FlatMap(f, a), f(x), FlatMap(f, c));
  }

  lemma SplitAround<T>(s: seq<T>, i: nat)
    requires i < |s|
    ensures s == (s[..i] + [s[i]]) + s[i + 1..]
  {
  }

  lemma FlatMapAround<T, U>(f: T -> seq<U>, s: seq<T>, i: nat)
    requires i < |s|
    ensures multiset(FlatMap(f, s)) == multiset(FlatMap(f, RemoveAt(s, i))) + multiset(f(s[i]))
  {
    SplitAround(s, i);
    FlatMapMiddle(f, s[..i], s[i], s[i + 1..]);
  }

  /** Permutations have permuted images. */
  lemma {:induction false} FlatMapPermutes<T, U>(f: T -> seq<U>, a: seq<T>, b: seq<T>)
    requires multiset(a) == multiset(b)
    ensures multiset(FlatMap(f, a)) == multiset(FlatMap(f, b))
    decreases |a|
  {
    if a == [] {
      assert |multiset(b)| == |b|;
    } else {
      var i := PermutationStep(a, b);
      var front := a[..|a| - 1];
      FlatMapPermutes(f, front, RemoveAt(b, i));
      FlatMapAround(f, b, i);
      FlatMapAround(f, a, |a| - 1);
      assert RemoveAt(a, |a| - 1) == front;
    }
  }

  // ----- counting

  ghost function Count<T>(s: seq<T>, x: T): nat {
    multiset(s)[x]
  }

  lemma CountAppend<T>(s: seq<T>, y: T, x: T)
    ensures Count(s + [y], x) == Count(s, x) + if x == y then 1 else 0
  {
  }

  lemma CountConcat<T>(a: seq<T>, b: seq<T>, x: T)
    ensures Count(a + b, x) == Count(a, x) + Count(b, x)
  {
  }

  lemma CountMember<T>(s: seq<T>, x: T)
    ensures Count(s, x) > 0 <==> x in s
  {
    assert x in s <==> x in multiset(s);
  }

  ghost predicate AtMostOnce<T>(s: seq<T>, x: T) {
    Count(s, x) <= 1
  }

  lemma RepeatsByCount<T(!new)>(s: seq<T>)
    ensures NoRepeats(s) <==> forall x {:trigger AtMostOnce(s, x)} :: AtMostOnce(s, x)
  {
    if NoRepeats(s) {
      forall x ensures AtMostOnce(s, x) {
        OnceEach(s, x);
      }
    } else {
      var i, j :| 0 <= i < j < |s| && s[i] == s[j];
      TwiceInMultiset(s, i, j);
      assert !AtMostOnce(s, s[i]);
    }
  }
}
