/** The sort step of the property page: `[...filtered].sort(comparator)`,
    where the comparator switches on the `sortBy` string. `Array.prototype.sort`
    is stable (ECMA-262 since ECMAScript 2019, section 23.1.3.30 of the 14th
    edition), so records the comparator calls equal keep their order. */
module Sorting {
  import opened Listing

  /** The three named sort keys and the comparator's default branch. */
  datatype SortKey = PriceLow | PriceHigh | RoiHigh | Other

  /** Dispatch on the `sortBy` string; every unrecognised name is `Other`. */
  function SortKeyOf(name: string): (k: SortKey)
    ensures k == Other <==> name != "price-low" && name != "price-high" && name != "roi-high"
    ensures name == "price-low" ==> k == PriceLow
    ensures name == "price-high" ==> k == PriceHigh
    ensures name == "roi-high" ==> k == RoiHigh
  {
    if name == "price-low" then PriceLow
    else if name == "price-high" then PriceHigh
    else if name == "roi-high" then RoiHigh
    else Other
  }

  /** The quantity each key orders by, ascending. */
  function Rank(key: SortKey, p: Property): real {
    match key
    case PriceLow => p.price
    case PriceHigh => -p.price
    case RoiHigh => -p.roi
    case Other => 0.0
  }

  /** The comparator handed to `sort`: a negative value puts `a` before `b`,
      zero leaves the two in their current order. It is the difference of the
      two records' ranks, so it is a consistent comparator in the sense
      ECMA-262 requires. */
  function Compare(key: SortKey, a: Property, b: Property): (r: real)
    ensures r == Rank(key, a) - Rank(key, b)
  {
    match key
    case PriceLow => a.price - b.price
    case PriceHigh => b.price - a.price
    case RoiHigh => b.roi - a.roi
    case Other => 0.0
  }

  /** No record is ranked above a record that follows it. */
  predicate Sorted(key: SortKey, s: seq<Property>) {
    forall i, j :: 0 <= i < j < |s| ==> Rank(key, s[i]) <= Rank(key, s[j])
  }

  /** The records of `s` whose rank is `v`, in their order in `s`. */
  function Ties(key: SortKey, s: seq<Property>, v: real): seq<Property> {
    if s == [] then []
    else if Rank(key, s[0]) == v then [s[0]] + Ties(key, s[1..], v)
    else Ties(key, s[1..], v)
  }

  /** Place `x` in front of the first record the comparator does not put
      before it. */
  function Insert(key: SortKey, x: Property, t: seq<Property>): (r: seq<Property>)
    ensures multiset(r) == multiset(t) + multiset{x}
  {
    if t == [] then [x]
    else if Compare(key, t[0], x) < 0.0 then
      assert t == [t[0]] + t[1..];
      [t[0]] + Insert(key, x, t[1..])
    else [x] + t
  }

  /** The stable sort, as insertion sort: each record goes in front of every
      later record of equal rank. */
  function SortBy(key: SortKey, s: seq<Property>): (r: seq<Property>)
    ensures multiset(r) == multiset(s)
    ensures |r| == |s|
  {
    if s == [] then []
    else
      assert s == [s[0]] + s[1..];
      Insert(key, s[0], SortBy(key, s[1..]))
  }

  lemma {:induction false} InsertSorted(key: SortKey, x: Property, t: seq<Property>)
    requires Sorted(key, t)
    ensures Sorted(key, Insert(key, x, t))
  {
    if t != [] && Compare(key, t[0], x) < 0.0 {
      InsertSorted(key, x, t[1..]);
      var rest := Insert(key, x, t[1..]);
      forall y | y in rest
        ensures Rank(key, t[0]) <= Rank(key, y)
      {
        assert y in multiset(rest);
        if y != x {
          assert y in t[1..];
        }
      }
    }
  }

  /** The sorted copy is in order for its key. */
  lemma {:induction false} SortBySorted(key: SortKey, s: seq<Property>)
    ensures Sorted(key, SortBy(key, s))
  {
    if s != [] {
      SortBySorted(key, s[1..]);
      InsertSorted(key, s[0], SortBy(key, s[1..]));
    }
  }

  lemma TiesCons(key: SortKey, y: Property, s: seq<Property>, v: real)
    ensures Ties(key, [y] + s, v) == if Rank(key, y) == v then [y] + Ties(key, s, v) else Ties(key, s, v)
  {
    assert ([y] + s)[1..] == s;
  }

  lemma {:induction false} InsertTies(key: SortKey, x: Property, t: seq<Property>, v: real)
    ensures Ties(key, Insert(key, x, t), v) == if Rank(key, x) == v then [x] + Ties(key, t, v) else Ties(key, t, v)
  {
    if t == [] {
      TiesCons(key, x, t, v);
    } else if Compare(key, t[0], x) < 0.0 {
      var rest := Insert(key, x, t[1..]);
      InsertTies(key, x, t[1..], v);
      assert Insert(key, x, t) == [t[0]] + rest;
      TiesCons(key, t[0], rest, v);
      if Rank(key, x) == v {
        assert Rank(key, t[0]) != v;
      }
    } else {
      assert Insert(key, x, t) == [x] + t;
      TiesCons(key, x, t, v);
    }
  }

  /** Stability: for every rank, the records of that rank appear in the sorted
      copy in the same order as in the input. */
  lemma {:induction false} SortByStable(key: SortKey, s: seq<Property>, v: real)
    ensures Ties(key, SortBy(key, s), v) == Ties(key, s, v)
  {
    if s != [] {
      SortByStable(key, s[1..], v);
      InsertTies(key, s[0], SortBy(key, s[1..]), v);
    }
  }

  /** The default branch returns 0 for every pair, so the order is unchanged. */
  lemma {:induction false} SortOtherIsIdentity(s: seq<Property>)
    ensures SortBy(Other, s) == s
  {
    if s != [] {
      SortOtherIsIdentity(s[1..]);
    }
  }

  /** What each named key promises about neighbouring records. */
  lemma SortOrderByKey(key: SortKey, s: seq<Property>)
    ensures var r := SortBy(key, s);
      && (key == PriceLow ==> forall i :: 0 <= i < |r| - 1 ==> r[i].price <= r[i + 1].price)
      && (key == PriceHigh ==> forall i :: 0 <= i < |r| - 1 ==> r[i].price >= r[i + 1].price)
      && (key == RoiHigh ==> forall i :: 0 <= i < |r| - 1 ==> r[i].roi >= r[i + 1].roi)
  {
    var r := SortBy(key, s);
    SortBySorted(key, s);
    forall i | 0 <= i < |r| - 1
      ensures Rank(key, r[i]) <= Rank(key, r[i + 1])
    {
    }
  }

  lemma {:induction false} TiesMember(key: SortKey, s: seq<Property>, v: real, y: Property)
    requires y in Ties(key, s, v)
    ensures y in s && Rank(key, y) == v
  {
    if s != [] && !(y == s[0] && Rank(key, y) == v) {
      TiesMember(key, s[1..], v, y);
    }
  }

  /** Two sequences sorted by the same key and listing every rank's records in
      the same order are equal. */
  lemma {:induction false} SortedTiesDetermine(key: SortKey, r1: seq<Property>, r2: seq<Property>)
    requires Sorted(key, r1) && Sorted(key, r2)
    requires forall v :: Ties(key, r1, v) == Ties(key, r2, v)
    ensures r1 == r2
    decreases |r1| + |r2|
  {
    if r1 == [] && r2 == [] {
    } else if r1 == [] || r2 == [] {
      // impossible: the head of the non-empty one has a rank the empty one cannot match
      TiesOfHeadRank(key, if r1 == [] then r2 else r1);
      assert false;
    } else {
      var m1, m2 := Rank(key, r1[0]), Rank(key, r2[0]);
      LeastRank(key, r1, r2);
      LeastRank(key, r2, r1);
      assert m1 == m2;
      assert Ties(key, r1, m1) == [r1[0]] + Ties(key, r1[1..], m1);
      assert Ties(key, r2, m1) == [r2[0]] + Ties(key, r2[1..], m1);
      assert r1[0] == Ties(key, r1, m1)[0] == Ties(key, r2, m1)[0] == r2[0];
      forall v
        ensures Ties(key, r1[1..], v) == Ties(key, r2[1..], v)
      {
        var t1, t2 := Ties(key, r1[1..], v), Ties(key, r2[1..], v);
        assert Ties(key, r1, v) == Ties(key, r2, v);
        if v == m1 {
          assert t1 == Ties(key, r1, v)[1..] && t2 == Ties(key, r2, v)[1..];
        } else {
          assert t1 == Ties(key, r1, v) && t2 == Ties(key, r2, v);
        }
      }
      SortedTiesDetermine(key, r1[1..], r2[1..]);
      assert r1 == [r1[0]] + r1[1..] && r2 == [r2[0]] + r2[1..];
    }
  }

  lemma TiesOfHeadRank(key: SortKey, s: seq<Property>)
    requires s != []
    ensures Ties(key, s, Rank(key, s[0])) != []
  {
  }

  /** The head of a sorted sequence has no larger rank than the head of
      another with the same ties. */
  lemma LeastRank(key: SortKey, r1: seq<Property>, r2: seq<Property>)
    requires r1 != [] && r2 != [] && Sorted(key, r2)
    requires forall v :: Ties(key, r1, v) == Ties(key, r2, v)
    ensures Rank(key, r2[0]) <= Rank(key, r1[0])
  {
    var m := Rank(key, r1[0]);
    assert r1[0] in Ties(key, r1, m);
    TiesMember(key, r2, m, r1[0]);
    var j :| 0 <= j < |r2| && r2[j] == r1[0];
    assert j == 0 || Rank(key, r2[0]) <= Rank(key, r2[j]);
  }

  /** `SortBy` is the only order a stable sort can produce: any sequence that
      is sorted by the key and keeps every rank's records in their input order
      is `SortBy`'s result. So the model does not depend on which algorithm
      the JavaScript engine uses. */
  lemma SortByUnique(key: SortKey, s: seq<Property>, r: seq<Property>)
    requires Sorted(key, r)
    requires forall v :: Ties(key, r, v) == Ties(key, s, v)
    ensures r == SortBy(key, s)
  {
    SortBySorted(key, s);
    forall v
      ensures Ties(key, r, v) == Ties(key, SortBy(key, s), v)
    {
      SortByStable(key, s, v);
    }
    SortedTiesDetermine(key, r, SortBy(key, s));
  }
}
