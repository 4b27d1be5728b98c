/**
 * Worked examples of the service pipeline on fixed supplier data: the capacity filter,
 * the price-descending sort and the three-supplier ranking, each stated for every list of
 * options that carries the given offers.
 */
module RideScenarios {
  import opened Lang
  import opened OptionEntity
  import opened OptionLists
  import opened RideService

  /** The ten offers pooled from dave (four), eric (five) and jeff (one), in pool order. */
  const SCENARIO: seq<Offer> := [
    Offer(Some("STANDARD"), 392299, 4),
    Offer(Some("LUXURY"), 810777, 4),
    Offer(Some("PEOPLE_CARRIER"), 616051, 6),
    Offer(Some("MINIBUS"), 665975, 16),
    Offer(Some("EXECUTIVE"), 272905, 4),
    Offer(Some("LUXURY"), 235868, 4),
    Offer(Some("PEOPLE_CARRIER"), 387596, 6),
    Offer(Some("LUXURY_PEOPLE_CARRIER"), 695553, 6),
    Offer(Some("MINIBUS"), 103801, 16),
    Offer(Some("MINIBUS"), 113801, 16)
  ]

  /** The supplier tag of each pooled option. */
  const SCENARIO_TAGS: seq<Nullable<string>> := [
    Some("dave"), Some("dave"), Some("dave"), Some("dave"),
    Some("eric"), Some("eric"), Some("eric"), Some("eric"), Some("eric"),
    Some("jeff")
  ]

  /** The ranking the service returns for the scenario: one offer per car type, dearest first. */
  const SCENARIO_RANKING: seq<Offer> := [
    Offer(Some("LUXURY_PEOPLE_CARRIER"), 695553, 6),
    Offer(Some("STANDARD"), 392299, 4),
    Offer(Some("PEOPLE_CARRIER"), 387596, 6),
    Offer(Some("EXECUTIVE"), 272905, 4),
    Offer(Some("LUXURY"), 235868, 4),
    Offer(Some("MINIBUS"), 103801, 16)
  ]

  /** Which supplier each ranked option comes from. */
  const SCENARIO_RANKING_TAGS: seq<Nullable<string>> :=
    [Some("eric"), Some("dave"), Some("eric"), Some("eric"), Some("eric"), Some("eric")]

  /** The pool positions of the ranked options, dearest first. */
  function Winners<T>(pool: seq<T>): (w: seq<T>)
    requires |pool| == 10
    ensures |w| == 6
  {
    [pool[7], pool[0], pool[6], pool[4], pool[5], pool[8]]
  }

  /** The pool positions of the six winners. */
  predicate Winning(k: nat)
  {
    k == 7 || k == 0 || k == 6 || k == 4 || k == 5 || k == 8
  }

  /** Every other offer of a winner's car type costs more than the winner. */
  lemma WinnerUndercuts(k: nat, j: nat)
    requires Winning(k) && j < 10 && j != k && SCENARIO[j].carType == SCENARIO[k].carType
    ensures SCENARIO[k].price < SCENARIO[j].price
  {
    if j == 0 {} else if j == 1 {} else if j == 2 {} else if j == 3 {} else if j == 4 {}
    else if j == 5 {} else if j == 6 {} else if j == 7 {} else if j == 8 {} else {}
  }

  /** A winner is the representative of its car type. */
  lemma WinnerRepresents(pool: seq<Option>, offers: seq<Offer>, k: nat)
    requires |pool| == 10 && offers == SCENARIO && Winning(k)
    ensures offers[k].carType.Some? && offers[k].carType.value in CarTypes(Entries(pool, offers))
    ensures Representative(Entries(pool, offers), offers[k].carType.value) == Entries(pool, offers)[k]
  {
    var entries := Entries(pool, offers);
    var t := offers[k].carType.value;
    forall d | d in entries && d.offer.carType == Some(t) && d != entries[k]
      ensures entries[k].offer.price < d.offer.price
    {
      var j :| 0 <= j < 10 && entries[j] == d;
      WinnerUndercuts(k, j);
    }
    UniqueCheapestIsRepresentative(entries, t, entries[k]);
  }

  /** Pool positions `j` and `w` carry the same car type. */
  lemma SameCarType(j: nat, w: nat)
    requires j < 10 && w == if j == 1 then 5 else if j == 2 then 6 else if j == 3 || j == 9 then 8 else j
    ensures SCENARIO[w].carType == SCENARIO[j].carType
  {
    if j == 0 {} else if j == 1 {} else if j == 2 {} else if j == 3 {} else if j == 4 {}
    else if j == 5 {} else if j == 6 {} else if j == 7 {} else if j == 8 {} else {}
  }

  /** Every car type of the scenario is the car type of one of the six winners, at pool position `w`. */
  lemma ScenarioCarType(pool: seq<Option>, offers: seq<Offer>, t: string) returns (w: nat)
    requires |pool| == 10 && offers == SCENARIO && t in CarTypes(Entries(pool, offers))
    ensures Winning(w) && offers[w].carType == Some(t)
  {
    var j := CarTypeAt(Entries(pool, offers), t);
    w := if j == 1 then 5 else if j == 2 then 6 else if j == 3 || j == 9 then 8 else j;
    SameCarType(j, w);
  }

  /** Every winner is kept. */
  lemma WinnerPicked(pool: seq<Option>, offers: seq<Offer>, picked: seq<Entry>, k: nat)
    requires |pool| == 10 && offers == SCENARIO && Winning(k) && OnePerCarType(Entries(pool, offers), picked)
    ensures Entries(pool, offers)[k] in picked
  {
    WinnerRepresents(pool, offers, k);
  }

  /** Nothing but a winner is kept. */
  lemma PickedIsWinner(pool: seq<Option>, offers: seq<Offer>, picked: seq<Entry>, e: Entry) returns (k: nat)
    requires |pool| == 10 && offers == SCENARIO && OnePerCarType(Entries(pool, offers), picked) && e in picked
    ensures Winning(k) && e == Entries(pool, offers)[k]
  {
    k := ScenarioCarType(pool, offers, e.offer.carType.value);
    WinnerRepresents(pool, offers, k);
  }

  /** Keeping the first cheapest per car type keeps exactly the six winning entries. */
  lemma ScenarioRepresentatives(pool: seq<Option>, offers: seq<Offer>, picked: seq<Entry>)
    requires |pool| == 10 && offers == SCENARIO && OnePerCarType(Entries(pool, offers), picked)
    ensures forall e :: e in picked <==> e in Winners(Entries(pool, offers))
  {
    var entries := Entries(pool, offers);
    var winners := Winners(entries);
    forall e | e in picked ensures e in winners {
      var k := PickedIsWinner(pool, offers, picked, e);
    }
    WinnerPicked(pool, offers, picked, 7);
    WinnerPicked(pool, offers, picked, 0);
    WinnerPicked(pool, offers, picked, 6);
    WinnerPicked(pool, offers, picked, 4);
    WinnerPicked(pool, offers, picked, 5);
    WinnerPicked(pool, offers, picked, 8);
  }

  /** The scenario's offers at the winning positions, in ranking order, are the expected ranking. */
  lemma RankingOffers(offers: seq<Offer>)
    requires offers == SCENARIO
    ensures Winners(offers) == SCENARIO_RANKING
  {
  }

  /** The expected ranking is strictly descending in price. */
  lemma RankingDescends()
    ensures forall i, j :: 0 <= i < j < 6 ==> SCENARIO_RANKING[i].price > SCENARIO_RANKING[j].price
  {
  }

  /** Picking the winners out of the pool picks their offers out of the pool's offers. */
  lemma OffersAtWinners(pool: seq<Option>, offers: seq<Offer>)
    requires |pool| == 10 && Offers(pool) == offers
    ensures Offers(Winners(pool)) == Winners(offers)
  {
    var w, ranking := Winners(pool), Winners(offers);
    forall i | 0 <= i < 6 ensures Offers(w)[i] == ranking[i] {
      var k := [7, 0, 6, 4, 5, 8][i];
      assert w[i] == pool[k] && ranking[i] == offers[k];
    }
  }

  /** Options whose offers descend strictly in price descend strictly in price. */
  lemma DescendingByOffers(s: seq<Option>, ranked: seq<Offer>)
    requires Offers(s) == ranked
    requires forall i, j :: 0 <= i < j < |ranked| ==> ranked[i].price > ranked[j].price
    ensures StrictlyDecreasingPrice(s)
  {
    forall i, j | 0 <= i < j < |s| ensures s[i].price > s[j].price {
      assert ranked[i].price == s[i].price && ranked[j].price == s[j].price;
    }
  }

  /** The winners, in ranking order, offer the expected ranking. */
  lemma WinnerOffers(pool: seq<Option>, offers: seq<Offer>)
    requires offers == SCENARIO && Offers(pool) == offers
    ensures |pool| == 10 && Offers(Winners(pool)) == SCENARIO_RANKING
  {
    assert |pool| == |offers| == 10;
    OffersAtWinners(pool, offers);
    RankingOffers(offers);
  }

  /** Options offering the expected ranking have strictly decreasing prices. */
  lemma RankingStrictlyDescends(s: seq<Option>)
    requires Offers(s) == SCENARIO_RANKING
    ensures StrictlyDecreasingPrice(s)
  {
    RankingDescends();
    DescendingByOffers(s, SCENARIO_RANKING);
  }

  /** The winners come from eric, dave, eric, eric, eric and eric. */
  lemma WinnerSuppliers(pool: seq<Option>)
    requires |pool| == 10 && Suppliers(pool) == SCENARIO_TAGS
    ensures Suppliers(Winners(pool)) == SCENARIO_RANKING_TAGS
  {
    var tags := Suppliers(pool);
    assert tags[7] == pool[7].supplier && tags[0] == pool[0].supplier && tags[6] == pool[6].supplier;
    assert tags[4] == pool[4].supplier && tags[5] == pool[5].supplier && tags[8] == pool[8].supplier;
  }

  /**
   * Two duplicate-free lists of the same entries hold the same options; if one holds each
   * option once, so does the other.
   */
  lemma SameEntriesSameOptions(picked: seq<Entry>, kept: seq<Entry>)
    requires Distinct(picked) && Distinct(OptionsOf(kept))
    requires forall e :: e in picked <==> e in kept
    ensures forall x :: x in OptionsOf(picked) <==> x in OptionsOf(kept)
    ensures Distinct(OptionsOf(picked))
    ensures multiset(OptionsOf(picked)) == multiset(OptionsOf(kept))
  {
    OptionsOfSameMembers(picked, kept);
    OptionsOfDistinct(picked, kept);
    DistinctSameElements(OptionsOf(picked), OptionsOf(kept));
  }

  /** Entry lists with the same members have option lists with the same members. */
  lemma OptionsOfSameMembers(picked: seq<Entry>, kept: seq<Entry>)
    requires forall e :: e in picked <==> e in kept
    ensures forall x :: x in OptionsOf(picked) <==> x in OptionsOf(kept)
  {
    var options, keptOptions := OptionsOf(picked), OptionsOf(kept);
    forall x ensures x in options <==> x in keptOptions {
      if x in options {
        var i :| 0 <= i < |options| && options[i] == x;
        assert picked[i] in kept;
        var a :| 0 <= a < |kept| && kept[a] == picked[i];
        assert keptOptions[a] == x;
      }
      if x in keptOptions {
        var a :| 0 <= a < |kept| && keptOptions[a] == x;
        assert kept[a] in picked;
        var i :| 0 <= i < |picked| && picked[i] == kept[a];
        assert options[i] == x;
      }
    }
  }

  /** Distinct entries, all among entries whose options are distinct, have distinct options. */
  lemma OptionsOfDistinct(picked: seq<Entry>, kept: seq<Entry>)
    requires Distinct(picked) && Distinct(OptionsOf(kept))
    requires forall e :: e in picked ==> e in kept
    ensures Distinct(OptionsOf(picked))
  {
    var options := OptionsOf(picked);
    forall i, j | 0 <= i < j < |options| ensures options[i] != options[j] {
      assert picked[i] in kept && picked[j] in kept;
      var a :| 0 <= a < |kept| && kept[a] == picked[i];
      var b :| 0 <= b < |kept| && kept[b] == picked[j];
      assert a != b;
    }
  }


  /** The winning entries hold the winning options. */
  lemma WinnerEntryOptions(pool: seq<Option>, offers: seq<Offer>)
    requires |pool| == 10 && |offers| == 10
    ensures OptionsOf(Winners(Entries(pool, offers))) == Winners(pool)
  {
    var entries := Entries(pool, offers);
    var kept, w := OptionsOf(Winners(entries)), Winners(pool);
    forall i | 0 <= i < 6 ensures kept[i] == w[i] {
      var k := [7, 0, 6, 4, 5, 8][i];
      assert Winners(entries)[i] == entries[k] && w[i] == pool[k];
    }
  }

  /** The kept options are the six winners, each once. */
  lemma PickedOptions(pool: seq<Option>, offers: seq<Offer>, picked: seq<Entry>)
    requires offers == SCENARIO && Offers(pool) == offers
    requires OnePerCarType(Entries(pool, offers), picked)
    ensures multiset(OptionsOf(picked)) == multiset(Winners(pool))
  {
    WinnerOffers(pool, offers);
    var w, entries := Winners(pool), Entries(pool, offers);
    RankingStrictlyDescends(w);
    StrictlyDecreasingDistinct(w);
    WinnerEntryOptions(pool, offers);
    ScenarioRepresentatives(pool, offers, picked);
    PickedDistinct(entries, picked);
    SameEntriesSameOptions(picked, Winners(entries));
  }

  /**
   * The three-supplier ranking: whatever options carry the scenario's offers and tags, the
   * service returns the six car types' cheapest options, dearest first, with their suppliers.
   */
  lemma ScenarioRanking(pool: seq<Option>, offers: seq<Offer>, picked: seq<Entry>)
    requires offers == SCENARIO && Offers(pool) == offers && Suppliers(pool) == SCENARIO_TAGS
    requires OnePerCarType(Entries(pool, offers), picked)
    ensures SortByPrice(OptionsOf(picked)) == Winners(pool)
    ensures Offers(SortByPrice(OptionsOf(picked))) == SCENARIO_RANKING
    ensures Suppliers(SortByPrice(OptionsOf(picked))) == SCENARIO_RANKING_TAGS
  {
    WinnerOffers(pool, offers);
    RankingStrictlyDescends(Winners(pool));
    WinnerSuppliers(pool);
    PickedOptions(pool, offers, picked);
    var options := OptionsOf(picked);
    SortByPriceSorted(options);
    SortedArrangementUnique(SortByPrice(options), Winners(pool));
  }

  /** The single-supplier offers: an executive car and a people carrier. */
  const PAIR: seq<Offer> := [Offer(Some("EXECUTIVE"), 279000, 4), Offer(Some("PEOPLE_CARRIER"), 329000, 6)]

  /** A party of six only fits the people carrier. */
  lemma PairForSix()
    ensures FitOffers(PAIR, Some(6)) == [PAIR[1]]
  {
  }

  /** Sorting the pair puts the dearer people carrier first. */
  lemma PairSorted(s: seq<Option>, offers: seq<Offer>)
    requires offers == PAIR && Offers(s) == offers
    ensures SortByPrice(s) == [s[1], s[0]]
    ensures Offers(SortByPrice(s)) == [PAIR[1], PAIR[0]]
  {
    assert |s| == 2 && offers[0] == PAIR[0] && offers[1] == PAIR[1];
    var swapped := [s[1], s[0]];
    assert s == [s[0], s[1]];
    assert multiset(swapped) == multiset(s);
    assert StrictlyDecreasingPrice(swapped);
    SortByPriceSorted(s);
    SortedArrangementUnique(SortByPrice(s), swapped);
  }

  /**
   * The aggregator on the three-supplier scenario: when the suppliers' responses pool to the
   * scenario's offers and tags, the result offers the expected ranking from the expected suppliers.
   */
  method RankScenario(client: Client, decode: Decoder, pickup: string, dropoff: string)
    returns (cheapest: OptionList)
    requires PooledOffers(client, decode, pickup, dropoff, Null, |SUPPLIERS|) == SCENARIO
    requires PooledTags(client, decode, pickup, dropoff, Null, |SUPPLIERS|) == SCENARIO_TAGS
    ensures Offers(cheapest.elems) == SCENARIO_RANKING
    ensures Suppliers(cheapest.elems) == SCENARIO_RANKING_TAGS
  {
    ghost var pool, picked;
    cheapest, pool, picked := FindOptionsByCarTypeWithCheapestSupplier(client, decode, pickup, dropoff, Null);
    ScenarioRanking(pool, Offers(pool), picked);
  }
}
