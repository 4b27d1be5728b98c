/**
 * The `java.util.List<Option>` the service passes around. It is an object so that the
 * list a Ride holds and the list `findOptions` hands back can be one and the same, and
 * `Collections.sort` reorders it in place.
 */
module OptionLists {
  import opened Lang
  import opened OptionEntity

  /** Adjacent or not, an earlier option never costs less than a later one. */
  ghost predicate NonIncreasingPrice(s: seq<Option>)
    reads s
  {
    forall i, j :: 0 <= i < j < |s| ==> s[i].price >= s[j].price
  }

  /** The options of `s` that cost exactly `price`, in their order in `s`. */
  function AtPrice(s: seq<Option>, price: int32): (r: seq<Option>)
    reads s
  {
    if s == [] then []
    else (if s[0].price == price then [s[0]] else []) + AtPrice(s[1..], price)
  }

  lemma {:induction false} AtPriceAppend(s: seq<Option>, t: seq<Option>, price: int32)
    ensures AtPrice(s + t, price) == AtPrice(s, price) + AtPrice(t, price)
  {
    if s != [] {
      var head := if s[0].price == price then [s[0]] else [];
      assert (s + t)[0] == s[0];
      assert (s + t)[1..] == s[1..] + t;
      calc {
        AtPrice(s + t, price);
        head + AtPrice(s[1..] + t, price);
        { AtPriceAppend(s[1..], t, price); }
        head + (AtPrice(s[1..], price) + AtPrice(t, price));
        (head + AtPrice(s[1..], price)) + AtPrice(t, price);
      }
    } else {
      assert s + t == t;
    }
  }

  /**
   * One step of a stable merge: `x` goes after every option of `s` that the (overflow-free)
   * comparator does not place after it, i.e. after every option at least as expensive.
   */
  function InsertByPrice(x: Option, s: seq<Option>): (r: seq<Option>)
    reads x, s
    ensures multiset(r) == multiset(s) + multiset{x}
  {
    if s == [] then [x]
    else if s[0].CompareDescending(x) <= 0 then
      assert s == [s[0]] + s[1..];
      [s[0]] + InsertByPrice(x, s[1..])
    else [x] + s
  }

  /**
   * `Collections.sort` under the natural order: the stable sort by price, descending
   * (insertion of each option, in list order, into the already sorted prefix).
   */
  function SortByPrice(s: seq<Option>): (r: seq<Option>)
    reads s
    ensures multiset(r) == multiset(s)
  {
    if s == [] then []
    else
      var sorted := SortByPrice(s[..|s| - 1]);
      assert forall i | 0 <= i < |sorted| :: sorted[i] in s by {
        forall i | 0 <= i < |sorted| ensures sorted[i] in s {
          assert multiset(sorted)[sorted[i]] > 0;
        }
      }
      assert s == s[..|s| - 1] + [s[|s| - 1]];
      InsertByPrice(s[|s| - 1], sorted)
  }

  lemma {:induction false} InsertByPriceSorted(x: Option, s: seq<Option>)
    requires NonIncreasingPrice(s)
    ensures NonIncreasingPrice(InsertByPrice(x, s))
  {
    if s == [] {
    } else if s[0].CompareDescending(x) <= 0 {
      InsertByPriceSorted(x, s[1..]);
      InsertedBelowHead(x, s);
      ConsSorted(s[0], InsertByPrice(x, s[1..]));
    } else {
      ConsSorted(x, s);
    }
  }

  /** An option no cheaper than every option of a sorted list can go in front of it. */
  lemma ConsSorted(head: Option, s: seq<Option>)
    requires NonIncreasingPrice(s)
    requires forall k :: 0 <= k < |s| ==> head.price >= s[k].price
    ensures NonIncreasingPrice([head] + s)
  {
    var r := [head] + s;
    forall i, j | 0 <= i < j < |r| ensures r[i].price >= r[j].price {
      assert r[j] == s[j - 1];
      assert i == 0 || r[i] == s[i - 1];
    }
  }

  /** The head of a sorted list stays ahead of everything the insertion puts after it. */
  lemma InsertedBelowHead(x: Option, s: seq<Option>)
    requires NonIncreasingPrice(s) && s != [] && s[0].CompareDescending(x) <= 0
    ensures forall k :: 0 <= k < |InsertByPrice(x, s[1..])| ==> s[0].price >= InsertByPrice(x, s[1..])[k].price
  {
    var rest := InsertByPrice(x, s[1..]);
    forall k | 0 <= k < |rest| ensures s[0].price >= rest[k].price {
      assert multiset(rest)[rest[k]] > 0;
      assert rest[k] in s[1..] || rest[k] == x;
    }
  }

  /** The sorted list never has a cheaper option before a dearer one. */
  lemma {:induction false} SortByPriceSorted(s: seq<Option>)
    ensures NonIncreasingPrice(SortByPrice(s))
  {
    if s != [] {
      SortByPriceSorted(s[..|s| - 1]);
      InsertByPriceSorted(s[|s| - 1], SortByPrice(s[..|s| - 1]));
    }
  }

  lemma {:induction false} InsertByPriceStable(x: Option, s: seq<Option>, price: int32)
    requires NonIncreasingPrice(s)
    ensures AtPrice(InsertByPrice(x, s), price) == AtPrice(s, price) + AtPrice([x], price)
  {
    if s == [] {
    } else if s[0].CompareDescending(x) <= 0 {
      var tail := s[1..];
      assert NonIncreasingPrice(tail) by {
        forall i, j | 0 <= i < j < |tail| ensures tail[i].price >= tail[j].price {
          assert tail[i] == s[i + 1] && tail[j] == s[j + 1];
        }
      }
      InsertByPriceStable(x, tail, price);
      StableBehindHead(x, s, price);
    } else {
      StableInFront(x, s, price);
    }
  }

  lemma StableBehindHead(x: Option, s: seq<Option>, price: int32)
    requires s != [] && s[0].CompareDescending(x) <= 0
    requires AtPrice(InsertByPrice(x, s[1..]), price) == AtPrice(s[1..], price) + AtPrice([x], price)
    ensures AtPrice(InsertByPrice(x, s), price) == AtPrice(s, price) + AtPrice([x], price)
  {
    var tail := s[1..];
    var head, rest, last := AtPrice([s[0]], price), AtPrice(tail, price), AtPrice([x], price);
    AtPriceAppend([s[0]], InsertByPrice(x, tail), price);
    AtPriceAppend([s[0]], tail, price);
    ConsTail(s);
    Associative(head, rest, last);
  }

  lemma StableInFront(x: Option, s: seq<Option>, price: int32)
    requires NonIncreasingPrice(s) && s != [] && s[0].CompareDescending(x) > 0
    ensures AtPrice(InsertByPrice(x, s), price) == AtPrice(s, price) + AtPrice([x], price)
  {
    AtPriceAppend([x], s, price);
    if x.price == price {
      forall o | o in s ensures o.price < price {
        var k :| 0 <= k < |s| && s[k] == o;
        assert k == 0 || s[0].price >= s[k].price;
      }
      NoneAtPrice(s, price);
    }
  }

  /** No option of `s` costs `price` when every one of them is cheaper. */
  lemma {:induction false} NoneAtPrice(s: seq<Option>, price: int32)
    requires forall o :: o in s ==> o.price < price
    ensures AtPrice(s, price) == []
  {
    if s != [] {
      NoneAtPrice(s[1..], price);
    }
  }

  /**
   * The sort is stable: for every price, the options at that price appear in the
   * sorted list in the order they had before.
   */
  lemma {:induction false} SortByPriceStable(s: seq<Option>, price: int32)
    ensures AtPrice(SortByPrice(s), price) == AtPrice(s, price)
  {
    if s != [] {
      var init, last := s[..|s| - 1], s[|s| - 1];
      SortByPriceStable(init, price);
      SortByPriceSorted(init);
      InsertByPriceStable(last, SortByPrice(init), price);
      AtPriceAppend(init, [last], price);
      assert init + [last] == s;
    }
  }

  /** A list already in price-descending order is left as it is. */
  lemma {:induction false} SortByPriceKeepsSorted(s: seq<Option>)
    requires NonIncreasingPrice(s)
    ensures SortByPrice(s) == s
  {
    if s != [] {
      var init, last := s[..|s| - 1], s[|s| - 1];
      SortByPriceKeepsSorted(init);
      InsertLastInPlace(last, init);
      assert init + [last] == s;
    }
  }

  lemma {:induction false} InsertLastInPlace(x: Option, s: seq<Option>)
    requires forall o :: o in s ==> o.price >= x.price
    ensures InsertByPrice(x, s) == s + [x]
  {
    if s != [] {
      InsertLastInPlace(x, s[1..]);
      assert [s[0]] + (s[1..] + [x]) == s + [x];
    }
  }

  /** Every two options of `s` differ in price, the earlier one costing more. */
  ghost predicate StrictlyDecreasingPrice(s: seq<Option>)
    reads s
  {
    forall i, j :: 0 <= i < j < |s| ==> s[i].price > s[j].price
  }

  /** A sorted permutation of a strictly descending list starts with that list's head. */
  lemma SortedHead(r: seq<Option>, w: seq<Option>)
    requires multiset(r) == multiset(w) && w != []
    requires NonIncreasingPrice(r) && StrictlyDecreasingPrice(w)
    ensures r != [] && r[0] == w[0]
  {
    assert |r| == |multiset(r)| == |multiset(w)| == |w|;
    assert r[0] in multiset(w) && w[0] in multiset(r);
    var k :| 0 <= k < |w| && w[k] == r[0];
    var j :| 0 <= j < |r| && r[j] == w[0];
    assert r[0].price >= r[j].price;
  }

  lemma NonIncreasingTail(s: seq<Option>)
    requires NonIncreasingPrice(s) && s != []
    ensures NonIncreasingPrice(s[1..])
  {
    var tail := s[1..];
    forall i, j | 0 <= i < j < |tail| ensures tail[i].price >= tail[j].price {
      assert tail[i] == s[i + 1] && tail[j] == s[j + 1];
    }
  }

  lemma StrictlyDecreasingTail(s: seq<Option>)
    requires StrictlyDecreasingPrice(s) && s != []
    ensures StrictlyDecreasingPrice(s[1..])
  {
    var tail := s[1..];
    forall i, j | 0 <= i < j < |tail| ensures tail[i].price > tail[j].price {
      assert tail[i] == s[i + 1] && tail[j] == s[j + 1];
    }
  }

  /** Options at pairwise different prices are pairwise different objects. */
  lemma StrictlyDecreasingDistinct(s: seq<Option>)
    requires StrictlyDecreasingPrice(s)
    ensures Distinct(s)
  {
    forall i, j | 0 <= i < j < |s| ensures s[i] != s[j] {
      assert s[i].price > s[j].price;
    }
  }

  /**
   * When no two options share a price, there is only one price-descending arrangement:
   * any sorted permutation of a strictly descending list is that list.
   */
  lemma {:induction false} SortedArrangementUnique(r: seq<Option>, w: seq<Option>)
    requires multiset(r) == multiset(w)
    requires NonIncreasingPrice(r) && StrictlyDecreasingPrice(w)
    ensures r == w
  {
    if w == [] {
      assert |r| == |multiset(r)| == 0;
    } else {
      SortedHead(r, w);
      ConsMultiset(r);
      ConsMultiset(w);
      NonIncreasingTail(r);
      StrictlyDecreasingTail(w);
      SortedArrangementUnique(r[1..], w[1..]);
      ConsTail(r);
      ConsTail(w);
    }
  }

  /** What an option offers, its supplier tag aside: the fields the pipeline reads. */
  datatype Offer = Offer(carType: Nullable<string>, price: int32, maxPassengers: int32)

  /** The offers of the options `s`, position by position. */
  function Offers(s: seq<Option>): (offers: seq<Offer>)
    reads s
    ensures |offers| == |s|
    ensures forall k {:trigger offers[k]} :: 0 <= k < |s| ==> offers[k] == Offer(s[k].carType, s[k].price, s[k].maxPassengers)
  {
    if s == [] then [] else [Offer(s[0].carType, s[0].price, s[0].maxPassengers)] + Offers(s[1..])
  }

  /** The supplier tags of the options `s`, position by position. */
  function Suppliers(s: seq<Option>): (tags: seq<Nullable<string>>)
    reads s
    ensures |tags| == |s| && forall k {:trigger tags[k]} :: 0 <= k < |s| ==> tags[k] == s[k].supplier
  {
    if s == [] then [] else [s[0].supplier] + Suppliers(s[1..])
  }

  lemma OffersAppend(s: seq<Option>, t: seq<Option>)
    ensures Offers(s + t) == Offers(s) + Offers(t)
  {
    assert forall k | 0 <= k < |s + t| :: (s + t)[k] == if k < |s| then s[k] else t[k - |s|];
  }

  lemma SuppliersAppend(s: seq<Option>, t: seq<Option>)
    ensures Suppliers(s + t) == Suppliers(s) + Suppliers(t)
  {
    assert forall k | 0 <= k < |s + t| :: (s + t)[k] == if k < |s| then s[k] else t[k - |s|];
  }

  class OptionList {
    var elems: seq<Option>

    /** `new ArrayList<>()` */
    constructor ()
      ensures elems == []
    {
      elems := [];
    }

    method Add(o: Option)
      modifies this`elems
      ensures elems == old(elems) + [o]
    {
      elems := elems + [o];
    }

    /** `addAll`: appends what `other` held on entry (also when `other` is this list). */
    method AddAll(other: OptionList)
      modifies this`elems
      ensures elems == old(elems) + old(other.elems)
      ensures Offers(elems) == old(Offers(elems)) + old(Offers(other.elems))
      ensures Suppliers(elems) == old(Suppliers(elems)) + old(Suppliers(other.elems))
    {
      ghost var before, added := elems, other.elems;
      ghost var offers, addedOffers := Offers(before), Offers(added);
      ghost var tags, addedTags := Suppliers(before), Suppliers(added);
      elems := elems + other.elems;
      assert Offers(before) == offers && Offers(added) == addedOffers;
      assert Suppliers(before) == tags && Suppliers(added) == addedTags;
      OffersAppend(before, added);
      SuppliersAppend(before, added);
    }

    /** `Collections.sort(list)`: reorders this list, in place, by the natural order of Option. */
    method Sort()
      modifies this`elems
      ensures elems == SortByPrice(old(elems))
      ensures multiset(elems) == multiset(old(elems)) && NonIncreasingPrice(elems)
    {
      ghost var before := elems;
      var sorted := SortByPrice(elems);
      SortByPriceSorted(before);
      assert NonIncreasingPrice(sorted);
      elems := sorted;
    }
  }
}
