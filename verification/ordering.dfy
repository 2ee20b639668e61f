/** `SUBSCRIPTIONS_COMPARATOR` and the sort of a bundle's subscriptions done with
    it: base subscriptions first, the others by ascending alignment start date. */
module SubscriptionOrder {
  import opened Catalog

  /** A subscription as the comparator sees it. */
  datatype SubscriptionView = SubscriptionView(id: nat, category: Category, alignStartDate: Instant)

  /** `DateTime.compareTo`: -1, 0 or +1. */
  function CompareInstants(a: Instant, b: Instant): int
  {
    if a < b then -1 else if a == b then 0 else 1
  }

  /** The comparator. A base subscription in first position compares lower than
      anything, a base subscription in second position higher than anything
      else, and two other subscriptions compare by alignment start date. */
  function Compare(a: SubscriptionView, b: SubscriptionView): (r: int)
    ensures r in {-1, 0, 1}
    ensures r == 0 ==> a.category != Base && b.category != Base && a.alignStartDate == b.alignStartDate
    ensures r < 0 <==> a.category == Base || (b.category != Base && a.alignStartDate < b.alignStartDate)
  {
    if a.category == Base then -1
    else if b.category == Base then 1
    else CompareInstants(a.alignStartDate, b.alignStartDate)
  }

  /** The comparator is not antisymmetric: two base subscriptions each compare
      lower than the other, so a sort's result among them is not determined by
      the comparator's contract. */
  lemma BaseAgainstBaseIsInconsistent(a: SubscriptionView, b: SubscriptionView)
    requires a.category == Base && b.category == Base
    ensures Compare(a, b) == -1 && Compare(b, a) == -1
  {
  }

  /** Away from a pair of base subscriptions the comparator is a consistent
      total preorder: antisymmetric in sign and transitive. */
  lemma ConsistentUnlessBothBase(a: SubscriptionView, b: SubscriptionView, c: SubscriptionView)
    requires !(a.category == Base && b.category == Base)
    requires !(b.category == Base && c.category == Base)
    requires !(a.category == Base && c.category == Base)
    ensures Compare(a, b) == -Compare(b, a)
    ensures Compare(a, b) <= 0 && Compare(b, c) <= 0 ==> Compare(a, c) <= 0
  {
  }

  /** `a` may be listed before `b`. */
  predicate Precedes(a: SubscriptionView, b: SubscriptionView)
  {
    (b.category == Base ==> a.category == Base)
    && (a.category != Base && b.category != Base ==> a.alignStartDate <= b.alignStartDate)
  }

  /** The listing order: base subscriptions precede all others, and the others
      are in ascending order of alignment start date. */
  predicate ListedInOrder(s: seq<SubscriptionView>)
  {
    forall i, j :: 0 <= i < j < |s| ==> Precedes(s[i], s[j])
  }

  /** Inserts `x` into `s` before the first element it compares lower than,
      as Java's binary insertion sort places its pivot. */
  function Insert(x: SubscriptionView, s: seq<SubscriptionView>): (r: seq<SubscriptionView>)
    ensures multiset(r) == multiset(s) + multiset{x}
  {
    if |s| == 0 then [x]
    else if Compare(x, s[0]) < 0 then [x] + s
    else
      assert s == [s[0]] + s[1..];
      [s[0]] + Insert(x, s[1..])
  }

  /** Inserting into a list in listing order keeps it in listing order. */
  lemma {:induction false} InsertKeepsOrder(x: SubscriptionView, s: seq<SubscriptionView>)
    requires ListedInOrder(s)
    ensures ListedInOrder(Insert(x, s))
  {
    if |s| == 0 {
    } else if Compare(x, s[0]) < 0 {
      var r := [x] + s;
      forall j | 0 < j < |r|
        ensures Precedes(x, r[j])
      {
        assert r[j] == s[j - 1];
        if j > 1 {
          assert Precedes(s[0], s[j - 1]);
        }
      }
      forall i, j | 0 <= i < j < |r|
        ensures Precedes(r[i], r[j])
      {
        if i > 0 {
          assert r[i] == s[i - 1] && r[j] == s[j - 1];
        }
      }
    } else {
      var rest := Insert(x, s[1..]);
      assert ListedInOrder(s[1..]) by {
        forall i, j | 0 <= i < j < |s[1..]|
          ensures Precedes(s[1..][i], s[1..][j])
        {
          assert s[1..][i] == s[i + 1] && s[1..][j] == s[j + 1];
        }
      }
      InsertKeepsOrder(x, s[1..]);
      var r := [s[0]] + rest;
      forall k | 0 <= k < |rest|
        ensures Precedes(s[0], rest[k])
      {
        assert rest[k] in multiset(rest);
        if rest[k] != x {
          assert rest[k] in multiset(s[1..]);
          var m :| 0 <= m < |s[1..]| && s[1..][m] == rest[k];
          assert Precedes(s[0], s[m + 1]);
        }
      }
      forall i, j | 0 <= i < j < |r|
        ensures Precedes(r[i], r[j])
      {
        if i == 0 {
          assert r[j] == rest[j - 1];
        } else {
          assert r[i] == rest[i - 1] && r[j] == rest[j - 1];
        }
      }
    }
  }

  /** `Collections.sort(subscriptions, SUBSCRIPTIONS_COMPARATOR)`, as the stable
      insertion sort Java performs: each element in turn is inserted into the
      already sorted prefix. */
  function SortSubscriptions(s: seq<SubscriptionView>): (r: seq<SubscriptionView>)
    ensures multiset(r) == multiset(s)
    ensures ListedInOrder(r)
  {
    if |s| == 0 then []
    else
      var sorted := SortSubscriptions(s[..|s| - 1]);
      InsertKeepsOrder(s[|s| - 1], sorted);
      assert s == s[..|s| - 1] + [s[|s| - 1]];
      Insert(s[|s| - 1], sorted)
  }

  /** With at most one base subscription, the listing order is exactly the
      comparator's order: no pair of the list is out of order for it. */
  lemma ListingOrderAgreesWithComparator(r: seq<SubscriptionView>)
    requires ListedInOrder(r)
    requires forall i, j :: 0 <= i < j < |r| ==> !(r[i].category == Base && r[j].category == Base)
    ensures forall i, j :: 0 <= i < j < |r| ==> Compare(r[i], r[j]) <= 0
  {
  }

  /** The listing contract callers rely on: when a bundle has a base
      subscription, the sorted list starts with one. */
  lemma BaseListedFirst(s: seq<SubscriptionView>, i: nat)
    requires i < |s| && s[i].category == Base
    ensures |SortSubscriptions(s)| > 0 && SortSubscriptions(s)[0].category == Base
  {
    var r := SortSubscriptions(s);
    assert s[i] in multiset(r);
    var k :| 0 <= k < |r| && r[k] == s[i];
    if k > 0 {
      assert Precedes(r[0], r[k]);
    }
  }
}
