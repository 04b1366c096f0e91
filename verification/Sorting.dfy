/** Sorting by a text key, and why the sorted form does not depend on the order it started from. */
module Sorting {

  /** Byte-wise comparison of strings. */
  predicate Less(a: string, b: string) {
    b != "" && (a == "" || a[0] < b[0] || (a[0] == b[0] && Less(a[1..], b[1..])))
  }

  lemma {:induction false} LessTotal(a: string, b: string)
    ensures a == b || Less(a, b) || Less(b, a)
    ensures !(Less(a, b) && Less(b, a)) && !Less(a, a)
    decreases |a|
  {
    LessIrreflexive(a);
    if a != "" && b != "" {
      LessTotal(a[1..], b[1..]);
      assert a == [a[0]] + a[1..] && b == [b[0]] + b[1..];
    }
  }

  lemma {:induction false} LessIrreflexive(a: string)
    ensures !Less(a, a)
    decreases |a|
  {
    if a != "" { LessIrreflexive(a[1..]); }
  }

  lemma {:induction false} LessTransitive(a: string, b: string, c: string)
    requires Less(a, b) && Less(b, c)
    ensures Less(a, c)
    decreases |a|
  {
    if a != "" && a[0] == b[0] == c[0] { LessTransitive(a[1..], b[1..], c[1..]); }
  }

  function Insert<T>(x: T, xs: seq<T>, key: T -> string): seq<T> {
    if xs == [] || !Less(key(xs[0]), key(x)) then [x] + xs else [xs[0]] + Insert(x, xs[1..], key)
  }

  function Sort<T>(xs: seq<T>, key: T -> string): seq<T> {
    if xs == [] then [] else Insert(xs[0], Sort(xs[1..], key), key)
  }

  /** Elements with equal keys are equal, as when keys are identities or known to be distinct. */
  ghost predicate Keyed<T(!new)>(xs: seq<T>, key: T -> string) { forall x, y | x in xs && y in xs && key(x) == key(y) :: x == y }

  predicate Ordered<T>(xs: seq<T>, key: T -> string) { forall i, j | 0 <= i < j < |xs| :: !Less(key(xs[j]), key(xs[i])) }

  lemma {:induction false} InsertContents<T>(x: T, xs: seq<T>, key: T -> string)
    ensures multiset(Insert(x, xs, key)) == multiset(xs) + multiset{x}
    decreases |xs|
  {
    if xs != [] {
      assert xs == [xs[0]] + xs[1..];
      if Less(key(xs[0]), key(x)) { InsertContents(x, xs[1..], key); }
    }
  }

  lemma {:induction false} SortContents<T>(xs: seq<T>, key: T -> string)
    ensures multiset(Sort(xs, key)) == multiset(xs)
    decreases |xs|
  {
    if xs != [] {
      SortContents(xs[1..], key);
      InsertContents(xs[0], Sort(xs[1..], key), key);
      assert xs == [xs[0]] + xs[1..];
    }
  }

  lemma {:induction false} InsertOrdered<T>(x: T, xs: seq<T>, key: T -> string)
    requires Ordered(xs, key)
    ensures Ordered(Insert(x, xs, key), key)
    decreases |xs|
  {
    var r := Insert(x, xs, key);
    if xs != [] && Less(key(xs[0]), key(x)) {
      var tail := Insert(x, xs[1..], key);
      InsertOrdered(x, xs[1..], key);
      InsertContents(x, xs[1..], key);
      forall j | 0 <= j < |tail| ensures !Less(key(tail[j]), key(xs[0])) {
        assert tail[j] in multiset(tail);
        LessTotal(key(xs[0]), key(x));
        if tail[j] != x { assert tail[j] in xs[1..]; }
      }
      assert r == [xs[0]] + tail;
    } else if xs != [] {
      forall j | 0 <= j < |xs| ensures !Less(key(xs[j]), key(x)) {
        if Less(key(xs[j]), key(x)) { NotLessChain(key(xs[j]), key(xs[0]), key(x)); }
      }
      assert r == [x] + xs;
    }
  }

  lemma NotLessChain(a: string, b: string, c: string)
    requires !Less(a, b) && !Less(b, c)
    ensures !Less(a, c)
  {
    LessTotal(a, b);
    LessTotal(b, c);
    LessTotal(a, c);
    if Less(a, c) {
      if a == b { assert false; }
      else if b == c { assert false; }
      else { LessTransitive(c, b, a); }
    }
  }

  lemma {:induction false} SortOrdered<T>(xs: seq<T>, key: T -> string)
    ensures Ordered(Sort(xs, key), key)
    decreases |xs|
  {
    if xs != [] {
      SortOrdered(xs[1..], key);
      InsertOrdered(xs[0], Sort(xs[1..], key), key);
    }
  }

  lemma HeadIsLeast<T>(xs: seq<T>, key: T -> string, x: T)
    requires Ordered(xs, key) && x in xs
    ensures !Less(key(x), key(xs[0]))
  {
    var i :| 0 <= i < |xs| && xs[i] == x;
    LessIrreflexive(key(x));
    if i > 0 { assert !Less(key(xs[i]), key(xs[0])); }
  }

  lemma SameHead<T(!new)>(a: seq<T>, b: seq<T>, key: T -> string)
    requires Ordered(a, key) && Ordered(b, key) && multiset(a) == multiset(b) && Keyed(a, key) && a != []
    ensures b != [] && a[0] == b[0]
  {
    assert a[0] in multiset(b);
    assert b[0] in multiset(b);
    assert b[0] in multiset(a);
    HeadIsLeast(a, key, b[0]);
    HeadIsLeast(b, key, a[0]);
    LessTotal(key(a[0]), key(b[0]));
  }

  lemma TailContents<T>(a: seq<T>)
    requires a != []
    ensures multiset(a[1..]) == multiset(a) - multiset{a[0]}
  {
    assert a == [a[0]] + a[1..];
  }

  /** Two ordered arrangements of the same elements are the same sequence. */
  lemma {:induction false} OrderedUnique<T(!new)>(a: seq<T>, b: seq<T>, key: T -> string)
    requires Ordered(a, key) && Ordered(b, key) && multiset(a) == multiset(b) && Keyed(a, key)
    ensures a == b
    decreases |a|
  {
    if a == [] {
      assert |multiset(b)| == 0;
    } else {
      SameHead(a, b, key);
      TailContents(a);
      TailContents(b);
      TailsOrdered(a, b, key);
      OrderedUnique(a[1..], b[1..], key);
      assert a == [a[0]] + a[1..] && b == [b[0]] + b[1..];
    }
  }

  lemma TailsOrdered<T(!new)>(a: seq<T>, b: seq<T>, key: T -> string)
    requires Ordered(a, key) && Ordered(b, key) && Keyed(a, key) && a != [] && b != []
    ensures Ordered(a[1..], key) && Ordered(b[1..], key) && Keyed(a[1..], key)
  {
    assert forall y | y in a[1..] :: y in a;
  }

  /** The sorted forms agree exactly when one input is a rearrangement of the other. */
  lemma SortAgreesIffPermuted<T(!new)>(a: seq<T>, b: seq<T>, key: T -> string)
    requires Keyed(a, key)
    ensures Sort(a, key) == Sort(b, key) <==> multiset(a) == multiset(b)
  {
    SortContents(a, key);
    SortContents(b, key);
    if multiset(a) == multiset(b) {
      SortOrdered(a, key);
      SortOrdered(b, key);
      var s := Sort(a, key);
      forall x, y | x in s && y in s && key(x) == key(y) ensures x == y {
        assert x in multiset(s) && y in multiset(s);
        assert x in a && y in a;
      }
      OrderedUnique(s, Sort(b, key), key);
    }
  }
}
