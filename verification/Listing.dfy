// Duplicate-free listings of finite sets: the order in which a hash map or hash set
// happens to be iterated, and the sorted order the program asks for explicitly.
module Listing {

  ghost predicate NoDup<T>(s: seq<T>) {
    forall i, j :: 0 <= i < j < |s| ==> s[i] != s[j]
  }

  // s lists exactly the elements of the set, each once.
  predicate IsListing<T(==)>(s: seq<T>, elements: set<T>) {
    (forall x <- s :: x in elements) &&
    (forall x <- elements :: x in s) &&
    |s| == |elements|
  }

  ghost predicate TotalOrder<T(!new)>(le: (T, T) -> bool) {
    (forall x, y :: le(x, y) || le(y, x)) &&
    (forall x, y :: le(x, y) && le(y, x) ==> x == y) &&
    (forall x, y, z :: le(x, y) && le(y, z) ==> le(x, z))
  }

  ghost predicate SortedBy<T>(s: seq<T>, le: (T, T) -> bool) {
    forall i, j :: 0 <= i < j < |s| ==> le(s[i], s[j])
  }

  lemma {:induction false} LeastExists<T(!new)>(elements: set<T>, le: (T, T) -> bool) returns (least: T)
    requires TotalOrder(le) && elements != {}
    ensures least in elements && forall y :: y in elements ==> le(least, y)
  {
    var x :| x in elements;
    if elements == {x} {
      least := x;
    } else {
      least := LeastExists(elements - {x}, le);
      if le(x, least) { least := x; }
    }
  }

  // The elements in increasing order.
  function Sorted<T(==, !new)>(elements: set<T>, le: (T, T) -> bool): (s: seq<T>)
    requires TotalOrder(le)
    ensures IsListing(s, elements) && SortedBy(s, le)
  {
    if elements == {} then []
    else
      assert exists x :: x in elements && forall y :: y in elements ==> le(x, y) by {
        var x := LeastExists(elements, le);
      }
      var x :| x in elements && forall y :: y in elements ==> le(x, y);
      [x] + Sorted(elements - {x}, le)
  }

  // A listing never repeats: pigeonhole on its length.
  lemma {:induction false} ListingNoDup<T>(s: seq<T>, elements: set<T>)
    requires IsListing(s, elements)
    ensures NoDup(s)
  {
    if s == [] { return; }
    var rest := s[1..];
    assert s == [s[0]] + rest;
    if s[0] in rest {
      assert forall x <- elements :: x in rest;
      Cardinality(rest, elements);
    } else {
      assert IsListing(rest, elements - {s[0]});
      ListingNoDup(rest, elements - {s[0]});
    }
  }

  lemma {:induction false} Cardinality<T>(s: seq<T>, elements: set<T>)
    requires forall x <- elements :: x in s
    ensures |elements| <= |s|
  {
    if s == [] {
      assert elements == {};
    } else {
      assert s == [s[0]] + s[1..];
      Cardinality(s[1..], elements - {s[0]});
      assert |elements| <= |elements - {s[0]}| + 1;
    }
  }

  // Two sorted listings of the same set are the same sequence.
  lemma {:induction false} SortedUnique<T(!new)>(a: seq<T>, b: seq<T>, elements: set<T>, le: (T, T) -> bool)
    requires TotalOrder(le)
    requires IsListing(a, elements) && SortedBy(a, le)
    requires IsListing(b, elements) && SortedBy(b, le)
    ensures a == b
  {
    if a == [] { return; }
    ListingNoDup(a, elements);
    ListingNoDup(b, elements);
    assert a[0] in b && b[0] in a;
    assert a[0] == b[0];
    assert a == [a[0]] + a[1..] && b == [b[0]] + b[1..];
    SortedUnique(a[1..], b[1..], elements - {a[0]}, le);
  }

  // --- The two orders the hub sorts by ---

  predicate IdLe(a: nat, b: nat) { a <= b }

  predicate NameLe(a: string, b: string) {
    a == [] || (b != [] && (a[0] < b[0] || (a[0] == b[0] && NameLe(a[1..], b[1..]))))
  }

  lemma {:induction false} NameLeTotal(a: string, b: string)
    ensures NameLe(a, b) || NameLe(b, a)
    ensures NameLe(a, b) && NameLe(b, a) ==> a == b
  {
    if a != [] && b != [] {
      NameLeTotal(a[1..], b[1..]);
      assert a == [a[0]] + a[1..] && b == [b[0]] + b[1..];
    }
  }

  // The first difference decides, and a beginning comes before what it begins.
  lemma {:induction false} NameLeFirstDifference(a: string, b: string, k: nat)
    requires k <= |a| && k <= |b| && a[..k] == b[..k]
    ensures k == |a| ==> NameLe(a, b)
    ensures k < |a| && k < |b| && a[k] < b[k] ==> NameLe(a, b) && !NameLe(b, a)
  {
    if k > 0 {
      assert a[0] == a[..k][0] == b[..k][0] == b[0];
      assert a[1..][..k - 1] == a[..k][1..] == b[..k][1..] == b[1..][..k - 1];
      NameLeFirstDifference(a[1..], b[1..], k - 1);
    }
  }

  lemma {:induction false} NameLeTransitive(a: string, b: string, c: string)
    requires NameLe(a, b) && NameLe(b, c)
    ensures NameLe(a, c)
  {
    if a != [] && a[0] == b[0] == c[0] {
      NameLeTransitive(a[1..], b[1..], c[1..]);
    }
  }

  lemma OrdersAreTotal()
    ensures TotalOrder(IdLe) && TotalOrder(NameLe)
  {
    forall a: string, b: string ensures NameLe(a, b) || NameLe(b, a) { NameLeTotal(a, b); }
    forall a: string, b: string | NameLe(a, b) && NameLe(b, a) ensures a == b { NameLeTotal(a, b); }
    forall a: string, b: string, c: string | NameLe(a, b) && NameLe(b, c) ensures NameLe(a, c) { NameLeTransitive(a, b, c); }
  }

  function SortedIds(elements: set<nat>): (s: seq<nat>)
    ensures IsListing(s, elements) && SortedBy(s, IdLe)
  {
    OrdersAreTotal();
    Sorted(elements, IdLe)
  }

  function SortedNames(elements: set<string>): (s: seq<string>)
    ensures IsListing(s, elements) && SortedBy(s, NameLe)
  {
    OrdersAreTotal();
    Sorted(elements, NameLe)
  }

  // The order an iteration over a hash table takes: any listing, and possibly another one at another time.
  type IdOrder = f: (nat, set<nat>) -> seq<nat> | forall t, elements :: IsListing(f(t, elements), elements)
    witness (t: nat, elements: set<nat>) => SortedIds(elements)

  type NameOrder = f: (nat, set<string>) -> seq<string> | forall t, elements :: IsListing(f(t, elements), elements)
    witness (t: nat, elements: set<string>) => SortedNames(elements)
}
