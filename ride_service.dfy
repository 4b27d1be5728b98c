/**
 * The aggregation pipeline of `service/RideService.java`: one gateway call per supplier,
 * normalisation of the payload into a Ride (every failure becomes the empty Ride), the
 * optional capacity filter, the single-supplier ranking, and the cheapest-per-car-type
 * ranking across the fixed suppliers.
 */
module RideService {
  import opened Lang
  import opened OptionEntity
  import opened OptionLists
  import opened RideEntity

  /** What `Client.get` hands back: a status code and a body. */
  datatype Response = Response(status: int, body: string)

  /** One option as a supplier's JSON payload carries it. */
  datatype OptionJson = OptionJson(carType: string, price: int32)

  /** A payload the JSON mapper could decode into a Ride. */
  datatype RideJson = RideJson(
    supplierId: Nullable<string>,
    pickup: Nullable<string>,
    dropoff: Nullable<string>,
    options: seq<OptionJson>)

  /** `Client.get(baseUrl, path, params)`: the HTTP round trip, an input of the model. */
  type Client = (string, string, map<string, string>) -> Response

  /** `objectMapper.readValue(body, Ride.class)`: `Null` where it throws `JsonProcessingException`. */
  type Decoder = string -> Nullable<RideJson>

  const TAXI_API_URL: string := "https://techtest.rideways.com"

  /** The supplier paths, in the order the aggregation visits them. */
  const SUPPLIERS: seq<string> := ["dave", "eric", "jeff"]

  const SC_OK: int := 200

  /** `buildParamsMap`: a map holding exactly the two query parameters. */
  method BuildParamsMap(pickup: string, dropoff: string) returns (params: map<string, string>)
    ensures params.Keys == {"pickup", "dropoff"}
    ensures params["pickup"] == pickup && params["dropoff"] == dropoff
  {
    params := map[];
    params := params["pickup" := pickup];
    params := params["dropoff" := dropoff];
  }

  /**
   * The gateway outcome for one supplier: `client.get` on the base URL and the supplier's path,
   * with any parameter map that binds exactly `pickup` and `dropoff`, as `buildParamsMap` builds.
   */
  function Fetch(client: Client, supplier: string, pickup: string, dropoff: string): (response: Response)
    ensures exists params: map<string, string> ::
              && params.Keys == {"pickup", "dropoff"} && params["pickup"] == pickup && params["dropoff"] == dropoff
              && response == client(TAXI_API_URL, supplier, params)
  {
    var params := map["pickup" := pickup, "dropoff" := dropoff];
    assert params.Keys == {"pickup", "dropoff"};
    client(TAXI_API_URL, supplier, params)
  }

  /** A map binding exactly `pickup` and `dropoff` is the one `buildParamsMap` builds. */
  lemma TwoParams(pickup: string, dropoff: string)
    ensures forall params: map<string, string> {:trigger params.Keys} ::
              params.Keys == {"pickup", "dropoff"} && params["pickup"] == pickup && params["dropoff"] == dropoff
              ==> params == map["pickup" := pickup, "dropoff" := dropoff]
  {
    var built := map["pickup" := pickup, "dropoff" := dropoff];
    forall params: map<string, string> |
      params.Keys == {"pickup", "dropoff"} && params["pickup"] == pickup && params["dropoff"] == dropoff
      ensures params == built
    {
      assert params.Keys == built.Keys;
    }
  }

  /** The payload `findRide` keeps: the decoded one for status 200 and a decodable body, none otherwise. */
  function Normalize(response: Response, decode: Decoder): (payload: Nullable<RideJson>)
    ensures payload.Some? ==> response.status == SC_OK && decode(response.body) == payload
    ensures response.status != SC_OK ==> payload == Null
    ensures response.status == SC_OK && decode(response.body).Null? ==> payload == Null
  {
    if response.status != SC_OK then Null else decode(response.body)
  }

  /**
   * The offers the JSON mapper makes of decoded options: the car type and price as sent,
   * the capacity from the table (0 for an unknown car type).
   */
  function DecodeOffers(jsons: seq<OptionJson>): (offers: seq<Offer>)
    ensures |offers| == |jsons|
    ensures forall k :: 0 <= k < |jsons| ==>
              offers[k] == Offer(Some(jsons[k].carType), jsons[k].price, CapacityAfter(jsons[k].carType, 0))
  {
    if jsons == [] then []
    else [Offer(Some(jsons[0].carType), jsons[0].price, CapacityAfter(jsons[0].carType, 0))] + DecodeOffers(jsons[1..])
  }

  /** The offers a normalised Ride holds for the payload `d`: none when there is none. */
  function PayloadOffers(d: Nullable<RideJson>): seq<Offer>
  {
    match d
    case Null => []
    case Some(json) => DecodeOffers(json.options)
  }

  ghost predicate Untagged(objs: seq<Option>)
    reads objs
  {
    forall o :: o in objs ==> o.supplier == Null
  }

  /** One decoded option: `Option()`, then `setCarType` and `setPrice`. */
  method NewOption(json: OptionJson) returns (option: Option)
    ensures fresh(option)
    ensures option.supplier == Null && option.carType == Some(json.carType) && option.price == json.price
    ensures option.maxPassengers == CapacityAfter(json.carType, 0)
    ensures option.CapacityMatchesCarType()
  {
    option := new Option();
    option.SetCarType(json.carType);
    option.SetPrice(json.price);
  }

  /** The option list the JSON mapper builds: one new option per decoded option, in order. */
  method NewOptionList(jsons: seq<OptionJson>) returns (list: OptionList)
    ensures fresh(list)
    ensures Offers(list.elems) == DecodeOffers(jsons) && Untagged(list.elems)
    ensures forall o :: o in list.elems ==> fresh(o)
  {
    list := new OptionList();
    for i := 0 to |jsons|
      invariant |list.elems| == i
      invariant forall k :: 0 <= k < i ==>
                  && list.elems[k].supplier == Null
                  && list.elems[k].carType == Some(jsons[k].carType)
                  && list.elems[k].price == jsons[k].price
                  && list.elems[k].maxPassengers == CapacityAfter(jsons[k].carType, 0)
      invariant forall o :: o in list.elems ==> fresh(o)
      modifies list
    {
      var option := NewOption(jsons[i]);
      list.Add(option);
    }
    assert Offers(list.elems) == DecodeOffers(jsons);
  }

  /**
   * What the JSON mapper builds for a decodable payload: `Ride()` filled through its setters,
   * and each option through `Option()`, `setCarType` and `setPrice`.
   */
  method Materialize(json: RideJson) returns (ride: Ride)
    ensures fresh(ride) && ride.options != null && fresh(ride.options)
    ensures ride.supplierId == json.supplierId && ride.pickup == json.pickup && ride.dropoff == json.dropoff
    ensures Offers(ride.options.elems) == DecodeOffers(json.options) && Untagged(ride.options.elems)
    ensures forall o :: o in ride.options.elems ==> fresh(o)
  {
    var list := NewOptionList(json.options);
    ride := new Ride();
    ride.SetSupplierId(json.supplierId);
    ride.SetPickup(json.pickup);
    ride.SetDropoff(json.dropoff);
    ride.SetOptions(list);
  }

  /**
   * `findRide`: any status other than 200, and any body that does not decode, yields the
   * empty Ride; otherwise the Ride the payload describes.
   */
  method FindRide(client: Client, decode: Decoder, supplier: string, pickup: string, dropoff: string)
    returns (ride: Ride)
    ensures fresh(ride) && ride.options != null && fresh(ride.options)
    ensures forall o :: o in ride.options.elems ==> fresh(o)
    ensures Untagged(ride.options.elems)
    ensures Offers(ride.options.elems) == PayloadOffers(Normalize(Fetch(client, supplier, pickup, dropoff), decode))
    ensures Fetch(client, supplier, pickup, dropoff).status != SC_OK ==> ride.IsEmpty()
    ensures match Normalize(Fetch(client, supplier, pickup, dropoff), decode)
            case Null => ride.IsEmpty()
            case Some(json) =>
              ride.supplierId == json.supplierId && ride.pickup == json.pickup && ride.dropoff == json.dropoff
  {
    var params := BuildParamsMap(pickup, dropoff);
    assert params == map["pickup" := pickup, "dropoff" := dropoff];
    var response := client(TAXI_API_URL, supplier, params);
    if response.status != SC_OK {
      ride := new Ride();
      return;
    }
    match decode(response.body)
    case Null =>
      ride := new Ride();
    case Some(json) =>
      ride := Materialize(json);
  }

  /**
   * The stream filter of `findOptions` over the options `s`, whose offers are `offers`:
   * the options that seat at least `passengersNo`, in list order.
   */
  function Fitting(s: seq<Option>, offers: seq<Offer>, passengersNo: int32): (kept: seq<Option>)
    requires |offers| == |s|
    ensures |kept| <= |s|
    ensures forall o :: o in kept ==> o in s
  {
    if s == [] then []
    else (if offers[0].maxPassengers >= passengersNo then [s[0]] else []) + Fitting(s[1..], offers[1..], passengersNo)
  }

  /** No filter without a passenger count; the capacity filter with one. */
  function NarrowOffers(s: seq<Option>, offers: seq<Offer>, passengersNo: Nullable<int32>): (kept: seq<Option>)
    requires |offers| == |s|
    ensures |kept| <= |s|
    ensures forall o :: o in kept ==> o in s
  {
    match passengersNo
    case Null => s
    case Some(n) => Fitting(s, offers, n)
  }

  /**
   * `NarrowOffers` on the options' own current offers: the identity without a passenger count,
   * never longer than its input. Which options it keeps is `NarrowMembers`.
   */
  function Narrow(s: seq<Option>, passengersNo: Nullable<int32>): (kept: seq<Option>)
    reads s
    ensures |kept| <= |s|
    ensures passengersNo.Null? ==> kept == s
  {
    NarrowOffers(s, Offers(s), passengersNo)
  }

  lemma {:induction false} FittingMembers(s: seq<Option>, offers: seq<Offer>, passengersNo: int32)
    requires |offers| == |s| && forall k :: 0 <= k < |s| ==> offers[k].maxPassengers == s[k].maxPassengers
    ensures forall o :: o in Fitting(s, offers, passengersNo) <==> o in s && o.maxPassengers >= passengersNo
  {
    if s != [] {
      FittingMembers(s[1..], offers[1..], passengersNo);
      assert s == [s[0]] + s[1..];
    }
  }

  /** The filter keeps exactly the options that seat at least `passengersNo`, and all of them without one. */
  lemma NarrowMembers(s: seq<Option>, passengersNo: Nullable<int32>)
    ensures passengersNo.Null? ==> Narrow(s, passengersNo) == s
    ensures passengersNo.Some? ==>
              forall o :: o in Narrow(s, passengersNo) <==> o in s && o.maxPassengers >= passengersNo.value
  {
    if passengersNo.Some? {
      FittingMembers(s, Offers(s), passengersNo.value);
    }
  }

  /**
   * `findOptions`: the Ride's own option list when it is empty or no passenger count is
   * given (the same list object), otherwise a new list of the options that fit.
   */
  method FindOptions(client: Client, decode: Decoder, supplier: string, pickup: string, dropoff: string,
                     passengersNo: Nullable<int32>)
    returns (options: OptionList, ghost ride: Ride)
    ensures fresh(ride) && ride.options != null && fresh(ride.options) && fresh(options)
    ensures forall o :: o in ride.options.elems ==> fresh(o)
    ensures Untagged(ride.options.elems)
    ensures Offers(ride.options.elems) == PayloadOffers(Normalize(Fetch(client, supplier, pickup, dropoff), decode))
    ensures Normalize(Fetch(client, supplier, pickup, dropoff), decode).Null? ==> ride.IsEmpty()
    ensures options.elems == Narrow(ride.options.elems, passengersNo)
    ensures passengersNo.Null? || ride.options.elems == [] ==> options == ride.options
  {
    var found := FindRide(client, decode, supplier, pickup, dropoff);
    ride := found;
    options := found.GetOptions();
    if options.elems != [] && passengersNo.Some? {
      var kept := new OptionList();
      kept.elems := Narrow(options.elems, passengersNo);
      options := kept;
    }
  }

  /**
   * `findOptionsByPriceDescending`: `findOptions`, then `Collections.sort` on that list, in
   * place. Without a filter the list sorted is the Ride's own.
   */
  method FindOptionsByPriceDescending(client: Client, decode: Decoder, supplier: string, pickup: string,
                                      dropoff: string, passengersNo: Nullable<int32>)
    returns (options: OptionList, ghost ride: Ride, ghost decoded: seq<Option>)
    ensures fresh(ride) && ride.options != null && fresh(options)
    ensures forall o :: o in decoded ==> fresh(o)
    ensures Untagged(decoded)
    ensures Offers(decoded) == PayloadOffers(Normalize(Fetch(client, supplier, pickup, dropoff), decode))
    ensures options.elems == SortByPrice(Narrow(decoded, passengersNo))
    ensures NonIncreasingPrice(options.elems)
    ensures multiset(options.elems) == multiset(Narrow(decoded, passengersNo))
    ensures passengersNo.Null? || decoded == [] ==> options == ride.options
  {
    options, ride := FindOptions(client, decode, supplier, pickup, dropoff, passengersNo);
    decoded := ride.options.elems;
    options.Sort();
  }

  /** `options.forEach(option -> option.setSupplier(supplier))`: tags every option, changes nothing else. */
  method TagWithSupplier(options: OptionList, supplier: string)
    modifies set o | o in options.elems
    ensures Suppliers(options.elems) == Tags(supplier, |options.elems|)
    ensures Offers(options.elems) == old(Offers(options.elems))
  {
    ghost var offers := Offers(options.elems);
    for i := 0 to |options.elems|
      invariant forall k :: 0 <= k < i ==> options.elems[k].supplier == Some(supplier)
      invariant forall o :: o in options.elems ==>
                  o.carType == old(o.carType) && o.price == old(o.price) && o.maxPassengers == old(o.maxPassengers)
    {
      options.elems[i].SetSupplier(Some(supplier));
    }
    assert forall k | 0 <= k < |options.elems| :: Offers(options.elems)[k] == offers[k];
  }

  /** `count` tags naming `supplier`. */
  function Tags(supplier: string, count: nat): (tags: seq<Nullable<string>>)
    ensures |tags| == count && forall k :: 0 <= k < count ==> tags[k] == Some(supplier)
  {
    if count == 0 then [] else [Some(supplier)] + Tags(supplier, count - 1)
  }

  /** The capacity filter on offers: all of them without a passenger count. */
  function FitOffers(offers: seq<Offer>, passengersNo: Nullable<int32>): (fit: seq<Offer>)
    ensures |fit| <= |offers|
    ensures forall o :: o in fit ==> o in offers && (passengersNo.Null? || o.maxPassengers >= passengersNo.value)
  {
    if passengersNo.Null? || offers == [] then offers
    else (if offers[0].maxPassengers >= passengersNo.value then [offers[0]] else []) + FitOffers(offers[1..], passengersNo)
  }

  /** Every offer names its car type. */
  ghost predicate Typed(offers: seq<Offer>)
  {
    forall k :: 0 <= k < |offers| ==> offers[k].carType.Some?
  }

  /** The filter keeps exactly the offers that seat the party, in their order. */
  lemma {:induction false} FitOffersMembers(offers: seq<Offer>, passengersNo: Nullable<int32>)
    ensures forall o :: o in FitOffers(offers, passengersNo) <==>
              o in offers && (passengersNo.Null? || o.maxPassengers >= passengersNo.value)
  {
    if passengersNo.Some? && offers != [] {
      FitOffersMembers(offers[1..], passengersNo);
      assert offers == [offers[0]] + offers[1..];
    }
  }

  lemma {:induction false} FitOffersAppend(s: seq<Offer>, t: seq<Offer>, passengersNo: Nullable<int32>)
    ensures FitOffers(s + t, passengersNo) == FitOffers(s, passengersNo) + FitOffers(t, passengersNo)
  {
    if passengersNo.Some? && s != [] {
      assert (s + t)[0] == s[0] && (s + t)[1..] == s[1..] + t;
      FitOffersAppend(s[1..], t, passengersNo);
      var head := if s[0].maxPassengers >= passengersNo.value then [s[0]] else [];
      Associative(head, FitOffers(s[1..], passengersNo), FitOffers(t, passengersNo));
    } else if s == [] {
      assert s + t == t;
    }
  }

  /**
   * Filtering for a party and then for a party at least as large is filtering once for the
   * larger one; with equal counts, the filter is idempotent.
   */
  lemma {:induction false} FitOffersNested(offers: seq<Offer>, fewer: int32, more: int32)
    requires fewer <= more
    ensures FitOffers(FitOffers(offers, Some(fewer)), Some(more)) == FitOffers(offers, Some(more))
  {
    if offers != [] {
      var head := if offers[0].maxPassengers >= fewer then [offers[0]] else [];
      FitOffersAppend(head, FitOffers(offers[1..], Some(fewer)), Some(more));
      FitOffersNested(offers[1..], fewer, more);
      if head != [] {
        assert head[1..] == [];
      }
    }
  }

  /** A larger party never gets an offer a smaller party would not get. */
  lemma FitOffersShrink(offers: seq<Offer>, fewer: int32, more: int32)
    requires fewer <= more
    ensures forall o :: o in FitOffers(offers, Some(more)) ==> o in FitOffers(offers, Some(fewer))
  {
    FitOffersMembers(offers, Some(more));
    FitOffersMembers(offers, Some(fewer));
  }

  /** When no offer seats the party, nothing passes the filter. */
  lemma {:induction false} NoneFit(offers: seq<Offer>, passengersNo: int32)
    requires forall k :: 0 <= k < |offers| ==> offers[k].maxPassengers < passengersNo
    ensures FitOffers(offers, Some(passengersNo)) == []
  {
    if offers != [] {
      NoneFit(offers[1..], passengersNo);
    }
  }

  /** Suppliers whose responses all fail or do not decode contribute no offers and no tags. */
  lemma {:induction false} PooledOffersOfFailures(client: Client, decode: Decoder, pickup: string, dropoff: string,
                                                  passengersNo: Nullable<int32>, n: nat)
    requires n <= |SUPPLIERS|
    requires forall i :: 0 <= i < n ==> Normalize(Fetch(client, SUPPLIERS[i], pickup, dropoff), decode).Null?
    ensures PooledOffers(client, decode, pickup, dropoff, passengersNo, n) == []
    ensures PooledTags(client, decode, pickup, dropoff, passengersNo, n) == []
  {
    if n > 0 {
      PooledOffersOfFailures(client, decode, pickup, dropoff, passengersNo, n - 1);
      assert SupplierOffers(client, decode, pickup, dropoff, passengersNo, n - 1) == [];
    }
  }

  /** With nothing pooled there is nothing to rank: the result is empty and no group is ever empty-handed. */
  lemma NothingPooledNothingRanked(pool: seq<Option>, picked: seq<Entry>)
    requires pool == [] && OnePerCarType(Entries(pool, []), picked)
    ensures picked == [] && OptionsOf(picked) == []
  {
    assert Entries(pool, []) == [];
  }

  lemma PooledOffersTyped(client: Client, decode: Decoder, pickup: string, dropoff: string,
                          passengersNo: Nullable<int32>, n: nat)
    requires n <= |SUPPLIERS|
    ensures Typed(PooledOffers(client, decode, pickup, dropoff, passengersNo, n))
  {
    if n > 0 {
      PooledOffersTyped(client, decode, pickup, dropoff, passengersNo, n - 1);
      var payload := PayloadOffers(Normalize(Fetch(client, SUPPLIERS[n - 1], pickup, dropoff), decode));
      FitOffersMembers(payload, passengersNo);
      var fit := SupplierOffers(client, decode, pickup, dropoff, passengersNo, n - 1);
      assert forall k | 0 <= k < |fit| :: fit[k] in payload;
    }
  }

  /** What supplier number `i` contributes to the pool: the offers of its normalised Ride that fit. */
  function SupplierOffers(client: Client, decode: Decoder, pickup: string, dropoff: string,
                          passengersNo: Nullable<int32>, i: nat): (offers: seq<Offer>)
    requires i < |SUPPLIERS|
    ensures Typed(offers)
    ensures passengersNo.Some? ==> forall o :: o in offers ==> o.maxPassengers >= passengersNo.value
    ensures Normalize(Fetch(client, SUPPLIERS[i], pickup, dropoff), decode).Null? ==> offers == []
  {
    FitOffers(PayloadOffers(Normalize(Fetch(client, SUPPLIERS[i], pickup, dropoff), decode)), passengersNo)
  }

  /** The offers of the first `n` suppliers, one supplier after another. */
  function PooledOffers(client: Client, decode: Decoder, pickup: string, dropoff: string,
                        passengersNo: Nullable<int32>, n: nat): (offers: seq<Offer>)
    requires n <= |SUPPLIERS|
    ensures Typed(offers)
    ensures passengersNo.Some? ==> forall o :: o in offers ==> o.maxPassengers >= passengersNo.value
  {
    if n == 0 then []
    else PooledOffers(client, decode, pickup, dropoff, passengersNo, n - 1)
         + SupplierOffers(client, decode, pickup, dropoff, passengersNo, n - 1)
  }

  /** The supplier tags of the first `n` suppliers' offers: each offer names the supplier it came from. */
  function PooledTags(client: Client, decode: Decoder, pickup: string, dropoff: string,
                      passengersNo: Nullable<int32>, n: nat): (tags: seq<Nullable<string>>)
    requires n <= |SUPPLIERS|
    ensures |tags| == |PooledOffers(client, decode, pickup, dropoff, passengersNo, n)|
    ensures forall k :: 0 <= k < |tags| ==> tags[k].Some? && tags[k].value in SUPPLIERS[..n]
  {
    if n == 0 then []
    else PooledTags(client, decode, pickup, dropoff, passengersNo, n - 1)
         + Tags(SUPPLIERS[n - 1], |SupplierOffers(client, decode, pickup, dropoff, passengersNo, n - 1)|)
  }

  lemma {:induction false} OffersOfFitting(s: seq<Option>, offers: seq<Offer>, passengersNo: int32)
    requires offers == Offers(s)
    ensures Offers(Fitting(s, offers, passengersNo)) == FitOffers(offers, Some(passengersNo))
  {
    if s != [] {
      assert offers[1..] == Offers(s[1..]);
      OffersOfFitting(s[1..], offers[1..], passengersNo);
      var head := if offers[0].maxPassengers >= passengersNo then [s[0]] else [];
      OffersAppend(head, Fitting(s[1..], offers[1..], passengersNo));
    }
  }

  /** Filtering the options and filtering their offers agree. */
  lemma OffersOfNarrow(s: seq<Option>, passengersNo: Nullable<int32>)
    ensures Offers(Narrow(s, passengersNo)) == FitOffers(Offers(s), passengersNo)
  {
    if passengersNo.Some? {
      OffersOfFitting(s, Offers(s), passengersNo.value);
    }
  }

  /**
   * A pooled option together with what it offers. The grouping and the minimum read an
   * option's car type and price; the model reads them from this snapshot.
   */
  datatype Entry = Entry(option: Option, offer: Offer)

  /** The options `pool` paired, position by position, with their offers. */
  function Entries(pool: seq<Option>, offers: seq<Offer>): (entries: seq<Entry>)
    requires |offers| == |pool|
    ensures |entries| == |pool|
    ensures forall k :: 0 <= k < |pool| ==> entries[k] == Entry(pool[k], offers[k])
  {
    if pool == [] then [] else [Entry(pool[0], offers[0])] + Entries(pool[1..], offers[1..])
  }

  /** The options of `entries`, in order. */
  function OptionsOf(entries: seq<Entry>): (options: seq<Option>)
    ensures |options| == |entries|
    ensures forall k :: 0 <= k < |entries| ==> options[k] == entries[k].option
  {
    if entries == [] then [] else [entries[0].option] + OptionsOf(entries[1..])
  }

  /** The car types present in `entries`. */
  function CarTypes(entries: seq<Entry>): (types: set<string>)
    ensures forall e :: e in entries && e.offer.carType.Some? ==> e.offer.carType.value in types
  {
    if entries == [] then {}
    else
      var first := entries[0];
      (if first.offer.carType.Some? then {first.offer.carType.value} else {}) + CarTypes(entries[1..])
  }

  /** The entries of car type `carType`, in pool order. */
  function OfCarType(entries: seq<Entry>, carType: string): (group: seq<Entry>)
    ensures forall e :: e in group ==> e in entries && e.offer.carType == Some(carType)
    ensures forall e :: e in entries && e.offer.carType == Some(carType) ==> e in group
    ensures group != [] <==> carType in CarTypes(entries)
  {
    if entries == [] then []
    else
      var first := entries[0];
      (if first.offer.carType == Some(carType) then [first] else []) + OfCarType(entries[1..], carType)
  }

  /**
   * `Collectors.groupingBy(Option::getCarType, toList())`: one group per car type present,
   * each in encounter order. A null car type would throw, hence the precondition.
   */
  function GroupByCarType(entries: seq<Entry>): (groups: map<string, seq<Entry>>)
    requires forall e :: e in entries ==> e.offer.carType.Some?
    ensures groups.Keys == CarTypes(entries)
    ensures forall t :: t in groups ==> groups[t] == OfCarType(entries, t)
  {
    if entries == [] then map[]
    else
      var groups := GroupByCarType(entries[1..]);
      var t := entries[0].offer.carType.value;
      groups[t := [entries[0]] + (if t in groups then groups[t] else [])]
  }

  /**
   * `stream().min(Comparator.comparing(Option::getPrice))`: a left fold keeping the earlier
   * entry on a tie, so the result is the first entry of the group at its lowest price.
   */
  function MinByPrice(group: seq<Entry>): (m: Entry)
    requires group != []
    ensures m in group
    ensures forall e :: e in group ==> m.offer.price <= e.offer.price
  {
    if |group| == 1 then group[0]
    else
      var init, last := group[..|group| - 1], group[|group| - 1];
      var best := MinByPrice(init);
      assert group == init + [last];
      if best.offer.price <= last.offer.price then best else last
  }

  /** Ties go to the earlier entry: no entry before the minimum costs as little as it does. */
  lemma {:induction false} MinByPriceIsFirst(group: seq<Entry>, k: int)
    requires 0 <= k < |group| && group[k].offer.price == MinByPrice(group).offer.price
    ensures MinByPrice(group) in group[..k + 1]
  {
    if |group| > 1 {
      var init, last := group[..|group| - 1], group[|group| - 1];
      if k < |init| && MinByPrice(init).offer.price <= last.offer.price {
        MinByPriceIsFirst(init, k);
        assert init[..k + 1] == group[..k + 1];
      }
    }
  }

  /** The entry kept for car type `carType`: the first cheapest of its group. */
  function Representative(entries: seq<Entry>, carType: string): (r: Entry)
    requires carType in CarTypes(entries)
    ensures r in entries && r.offer.carType == Some(carType)
    ensures forall e :: e in entries && e.offer.carType == Some(carType) ==> r.offer.price <= e.offer.price
  {
    MinByPrice(OfCarType(entries, carType))
  }

  /** The representative of a car type is an entry of that type that no entry of the type undercuts. */
  lemma RepresentativeIsCheapest(entries: seq<Entry>, carType: string)
    requires carType in CarTypes(entries)
    ensures Representative(entries, carType) in entries
    ensures Representative(entries, carType).offer.carType == Some(carType)
    ensures forall e :: e in entries && e.offer.carType == Some(carType) ==>
              Representative(entries, carType).offer.price <= e.offer.price
  {
  }

  /** Every car type present is the car type of some entry. */
  lemma CarTypeAt(entries: seq<Entry>, carType: string) returns (k: nat)
    requires carType in CarTypes(entries)
    ensures k < |entries| && entries[k].offer.carType == Some(carType)
  {
    var group := OfCarType(entries, carType);
    assert group[0] in group;
    k :| 0 <= k < |entries| && entries[k] == group[0];
  }

  /** An entry that every other entry of its car type undercuts in price is that type's representative. */
  lemma UniqueCheapestIsRepresentative(entries: seq<Entry>, carType: string, e: Entry)
    requires e in entries && e.offer.carType == Some(carType)
    requires forall d :: d in entries && d.offer.carType == Some(carType) && d != e ==> e.offer.price < d.offer.price
    ensures carType in CarTypes(entries)
    ensures Representative(entries, carType) == e
  {
    RepresentativeIsCheapest(entries, carType);
  }

  /**
   * One entry per car type present in `entries`, namely that type's representative, and
   * nothing else (in any order).
   */
  ghost predicate OnePerCarType(entries: seq<Entry>, picked: seq<Entry>)
    ensures OnePerCarType(entries, picked) ==> Distinct(picked)
    ensures OnePerCarType(entries, picked) ==>
              forall e :: e in picked ==>
                (e in entries
                 && forall d :: d in entries && d.offer.carType == e.offer.carType ==> e.offer.price <= d.offer.price)
  {
    && |picked| == |CarTypes(entries)|
    && (forall i, j :: 0 <= i < j < |picked| ==> picked[i].offer.carType != picked[j].offer.carType)
    && (forall e :: e in picked ==>
          e.offer.carType.Some? && e.offer.carType.value in CarTypes(entries)
          && e == Representative(entries, e.offer.carType.value))
    && (forall t {:trigger Representative(entries, t)} :: t in CarTypes(entries) ==> Representative(entries, t) in picked)
  }

  /** A supplier whose response fails or does not decode tags no pooled option. */
  lemma {:induction false} FailedSupplierUntagged(client: Client, decode: Decoder, pickup: string, dropoff: string,
                                                  passengersNo: Nullable<int32>, n: nat, i: nat)
    requires n <= |SUPPLIERS| && i < |SUPPLIERS|
    requires Normalize(Fetch(client, SUPPLIERS[i], pickup, dropoff), decode).Null?
    ensures Some(SUPPLIERS[i]) !in PooledTags(client, decode, pickup, dropoff, passengersNo, n)
  {
    if n > 0 {
      FailedSupplierUntagged(client, decode, pickup, dropoff, passengersNo, n - 1, i);
      UntaggedAfterTurn(PooledTags(client, decode, pickup, dropoff, passengersNo, n - 1), SUPPLIERS[n - 1],
                        |SupplierOffers(client, decode, pickup, dropoff, passengersNo, n - 1)|, SUPPLIERS[i]);
    }
  }

  /** One supplier's turn adds no tag of a supplier that was absent, unless that supplier adds options. */
  lemma UntaggedAfterTurn(earlier: seq<Nullable<string>>, supplier: string, count: nat, absent: string)
    requires Some(absent) !in earlier
    requires supplier == absent ==> count == 0
    ensures Some(absent) !in earlier + Tags(supplier, count)
  {
    if supplier == absent {
      assert Tags(supplier, count) == [];
    }
  }

  /** Every ranked option is one of the pooled options. */
  lemma PickedFromPool(pool: seq<Option>, offers: seq<Offer>, picked: seq<Entry>)
    requires |offers| == |pool| && OnePerCarType(Entries(pool, offers), picked)
    ensures forall o :: o in SortByPrice(OptionsOf(picked)) ==> o in pool
  {
    assert forall e :: e in picked ==> e in Entries(pool, offers);
    forall o | o in SortByPrice(OptionsOf(picked)) ensures o in pool {
      assert multiset(SortByPrice(OptionsOf(picked)))[o] > 0;
      PickedOption(pool, offers, picked, o);
    }
  }

  lemma PickedOption(pool: seq<Option>, offers: seq<Offer>, picked: seq<Entry>, o: Option)
    requires |offers| == |pool| && forall e :: e in picked ==> e in Entries(pool, offers)
    requires o in OptionsOf(picked)
    ensures o in pool
  {
    var entries := Entries(pool, offers);
    var options := OptionsOf(picked);
    var k :| 0 <= k < |options| && options[k] == o;
    assert picked[k] in picked;
    var j :| 0 <= j < |entries| && entries[j] == picked[k];
    assert o == pool[j];
  }

  /**
   * Partial-failure isolation: whichever suppliers fail, no option of the ranking names any of
   * them, so every ranked option comes from a supplier that answered.
   */
  lemma FailedSupplierAbsent(client: Client, decode: Decoder, pickup: string, dropoff: string,
                             passengersNo: Nullable<int32>, pool: seq<Option>, picked: seq<Entry>, i: nat)
    requires i < |SUPPLIERS| && Normalize(Fetch(client, SUPPLIERS[i], pickup, dropoff), decode).Null?
    requires Offers(pool) == PooledOffers(client, decode, pickup, dropoff, passengersNo, |SUPPLIERS|)
    requires Suppliers(pool) == PooledTags(client, decode, pickup, dropoff, passengersNo, |SUPPLIERS|)
    requires OnePerCarType(Entries(pool, PooledOffers(client, decode, pickup, dropoff, passengersNo, |SUPPLIERS|)), picked)
    ensures forall o :: o in SortByPrice(OptionsOf(picked)) ==> o.supplier != Some(SUPPLIERS[i])
  {
    var tags := PooledTags(client, decode, pickup, dropoff, passengersNo, |SUPPLIERS|);
    FailedSupplierUntagged(client, decode, pickup, dropoff, passengersNo, |SUPPLIERS|, i);
    PickedFromPool(pool, PooledOffers(client, decode, pickup, dropoff, passengersNo, |SUPPLIERS|), picked);
    forall o | o in SortByPrice(OptionsOf(picked)) ensures o.supplier != Some(SUPPLIERS[i]) {
      var k :| 0 <= k < |pool| && pool[k] == o;
      assert Suppliers(pool)[k] == o.supplier;
    }
  }

  /** The kept entries are pairwise distinct, since their car types are. */
  lemma PickedDistinct(entries: seq<Entry>, picked: seq<Entry>)
    requires OnePerCarType(entries, picked)
    ensures Distinct(picked)
  {
  }

  /**
   * One pass of the supplier loop: `findOptions` for `supplier`, then every option of the
   * result tagged with the supplier. Only objects created here change.
   */
  method OptionsTaggedBy(client: Client, decode: Decoder, i: nat, pickup: string, dropoff: string,
                         passengersNo: Nullable<int32>)
    returns (options: OptionList)
    requires i < |SUPPLIERS|
    ensures fresh(options)
    ensures Offers(options.elems) == SupplierOffers(client, decode, pickup, dropoff, passengersNo, i)
    ensures Suppliers(options.elems) == Tags(SUPPLIERS[i], |options.elems|)
  {
    ghost var ride;
    options, ride := FindOptions(client, decode, SUPPLIERS[i], pickup, dropoff, passengersNo);
    NarrowMembers(ride.options.elems, passengersNo);
    OffersOfNarrow(ride.options.elems, passengersNo);
    TagWithSupplier(options, SUPPLIERS[i]);
  }

  /** One pass of the supplier loop: supplier `i`'s tagged options go to the end of the pool. */
  method AddSupplierOptions(pool: OptionList, client: Client, decode: Decoder, i: nat, pickup: string,
                            dropoff: string, passengersNo: Nullable<int32>)
    requires i < |SUPPLIERS|
    requires Offers(pool.elems) == PooledOffers(client, decode, pickup, dropoff, passengersNo, i)
    requires Suppliers(pool.elems) == PooledTags(client, decode, pickup, dropoff, passengersNo, i)
    modifies pool
    ensures Offers(pool.elems) == PooledOffers(client, decode, pickup, dropoff, passengersNo, i + 1)
    ensures Suppliers(pool.elems) == PooledTags(client, decode, pickup, dropoff, passengersNo, i + 1)
  {
    ghost var offers, tags := Offers(pool.elems), Suppliers(pool.elems);
    var options := OptionsTaggedBy(client, decode, i, pickup, dropoff, passengersNo);
    assert Offers(pool.elems) == offers && Suppliers(pool.elems) == tags;
    pool.AddAll(options);
  }

  /**
   * The supplier loop of `findOptionsByCarTypeWithCheapestSupplier`: for dave, eric and jeff
   * in turn, the tagged options are appended to the pool.
   */
  method CollectOptions(client: Client, decode: Decoder, pickup: string, dropoff: string,
                        passengersNo: Nullable<int32>)
    returns (pool: OptionList)
    ensures fresh(pool)
    ensures Offers(pool.elems) == PooledOffers(client, decode, pickup, dropoff, passengersNo, |SUPPLIERS|)
    ensures Suppliers(pool.elems) == PooledTags(client, decode, pickup, dropoff, passengersNo, |SUPPLIERS|)
  {
    pool := new OptionList();
    for i := 0 to |SUPPLIERS|
      invariant fresh(pool)
      invariant Offers(pool.elems) == PooledOffers(client, decode, pickup, dropoff, passengersNo, i)
      invariant Suppliers(pool.elems) == PooledTags(client, decode, pickup, dropoff, passengersNo, i)
    {
      AddSupplierOptions(pool, client, decode, i, pickup, dropoff, passengersNo);
    }
  }

  /**
   * The loop over the groups: each group's first cheapest, appended in the order the groups
   * are visited. That order is arbitrary, as a HashMap's entry order is; `order` records it.
   */
  method CheapestOfGroups(groups: map<string, seq<Entry>>)
    returns (cheapest: OptionList, ghost order: seq<string>, ghost picked: seq<Entry>)
    requires forall t :: t in groups ==> groups[t] != []
    ensures fresh(cheapest)
    ensures cheapest.elems == OptionsOf(picked)
    ensures |picked| == |order| == |groups.Keys|
    ensures forall i, j :: 0 <= i < j < |order| ==> order[i] != order[j]
    ensures forall t :: t in groups <==> t in order
    ensures forall k :: 0 <= k < |order| ==> order[k] in groups && picked[k] == MinByPrice(groups[order[k]])
  {
    cheapest := new OptionList();
    order, picked := [], [];
    var remaining := groups.Keys;
    while remaining != {}
      invariant cheapest.elems == OptionsOf(picked)
      invariant Visited(groups, remaining, order, picked)
      decreases remaining
    {
      var t :| t in remaining;
      // The group is never empty, so the `orElseThrow` branch cannot be taken.
      var m := MinByPrice(groups[t]);
      cheapest.Add(m.option);
      OptionsOfAppend(picked, m);
      VisitNext(groups, remaining, order, picked, t);
      order, picked := order + [t], picked + [m];
      remaining := remaining - {t};
    }
  }

  /**
   * The state of the loop over the groups: `order` lists the visited car types once each,
   * `picked` their groups' first cheapest, and `remaining` the car types still to visit.
   */
  ghost predicate Visited(groups: map<string, seq<Entry>>, remaining: set<string>, order: seq<string>,
                          picked: seq<Entry>)
  {
    && remaining <= groups.Keys
    && |picked| == |order| && |order| + |remaining| == |groups.Keys|
    && (forall i, j :: 0 <= i < j < |order| ==> order[i] != order[j])
    && (forall k :: 0 <= k < |order| ==>
          order[k] in groups && order[k] !in remaining && groups[order[k]] != []
          && picked[k] == MinByPrice(groups[order[k]]))
    && (forall t :: t in groups ==> t in remaining || t in order)
  }

  lemma VisitNext(groups: map<string, seq<Entry>>, remaining: set<string>, order: seq<string>,
                  picked: seq<Entry>, t: string)
    requires Visited(groups, remaining, order, picked)
    requires t in remaining && groups[t] != []
    ensures Visited(groups, remaining - {t}, order + [t], picked + [MinByPrice(groups[t])])
  {
    var order', picked' := order + [t], picked + [MinByPrice(groups[t])];
    forall k | 0 <= k < |order'|
      ensures order'[k] in groups && order'[k] !in remaining - {t} && groups[order'[k]] != []
              && picked'[k] == MinByPrice(groups[order'[k]])
    {
      if k < |order| {
        assert order'[k] == order[k] && picked'[k] == picked[k];
      }
    }
  }

  lemma OptionsOfAppend(entries: seq<Entry>, e: Entry)
    ensures OptionsOf(entries + [e]) == OptionsOf(entries) + [e.option]
  {
    assert OptionsOf(entries + [e])[|entries|] == e.option;
  }

  /** Each group's first cheapest, listed once per group in any order, is one representative per car type. */
  lemma RepresentativesOfGroups(entries: seq<Entry>, groups: map<string, seq<Entry>>, order: seq<string>,
                                 picked: seq<Entry>)
    requires forall e :: e in entries ==> e.offer.carType.Some?
    requires groups == GroupByCarType(entries)
    requires |picked| == |order| == |groups.Keys|
    requires forall i, j :: 0 <= i < j < |order| ==> order[i] != order[j]
    requires forall t :: t in groups <==> t in order
    requires forall k :: 0 <= k < |order| ==> order[k] in groups && picked[k] == MinByPrice(groups[order[k]])
    ensures OnePerCarType(entries, picked)
  {
    assert groups.Keys == CarTypes(entries);
    forall k | 0 <= k < |picked|
      ensures picked[k].offer.carType == Some(order[k]) && picked[k] == Representative(entries, order[k])
    {
      assert groups[order[k]] == OfCarType(entries, order[k]);
      assert picked[k] in groups[order[k]];
    }
    forall e | e in picked
      ensures e.offer.carType.Some? && e.offer.carType.value in CarTypes(entries)
              && e == Representative(entries, e.offer.carType.value)
    {
      var k :| 0 <= k < |picked| && picked[k] == e;
    }
    forall t | t in CarTypes(entries) ensures Representative(entries, t) in picked {
      var k :| 0 <= k < |order| && order[k] == t;
    }
  }

  /** The grouping step: group the entries by car type, then keep each group's first cheapest. */
  method KeepCheapest(entries: seq<Entry>) returns (cheapest: OptionList, ghost picked: seq<Entry>)
    requires forall e :: e in entries ==> e.offer.carType.Some?
    ensures fresh(cheapest)
    ensures cheapest.elems == OptionsOf(picked)
    ensures OnePerCarType(entries, picked)
  {
    var groups := GroupByCarType(entries);
    ghost var order;
    cheapest, order, picked := CheapestOfGroups(groups);
    RepresentativesOfGroups(entries, groups, order, picked);
  }

  lemma EntriesTyped(pool: seq<Option>, offers: seq<Offer>)
    requires |offers| == |pool| && Typed(offers)
    ensures forall e :: e in Entries(pool, offers) ==> e.offer.carType.Some?
  {
    var entries := Entries(pool, offers);
    forall e | e in entries ensures e.offer.carType.Some? {
      var k :| 0 <= k < |entries| && entries[k] == e;
    }
  }

  /**
   * The ranking step: group the pool by car type, keep each group's first cheapest option,
   * then sort those by price, descending. `picked` lists the kept entries in visit order.
   */
  method RankCheapest(pool: seq<Option>) returns (cheapest: OptionList, ghost picked: seq<Entry>)
    requires Typed(Offers(pool))
    ensures fresh(cheapest)
    ensures OnePerCarType(Entries(pool, old(Offers(pool))), picked)
    ensures cheapest.elems == SortByPrice(OptionsOf(picked))
    ensures NonIncreasingPrice(cheapest.elems)
  {
    var entries := Entries(pool, Offers(pool));
    EntriesTyped(pool, Offers(pool));
    cheapest, picked := KeepCheapest(entries);
    cheapest.Sort();
  }

  /**
   * `findOptionsByCarTypeWithCheapestSupplier`: pool the three suppliers' options, keep the
   * first cheapest of each car type, and sort those by price, descending. `pool` is the
   * pooled list and `picked` the kept entries in the order the groups were visited.
   */
  method FindOptionsByCarTypeWithCheapestSupplier(client: Client, decode: Decoder, pickup: string,
                                                  dropoff: string, passengersNo: Nullable<int32>)
    returns (cheapest: OptionList, ghost pool: seq<Option>, ghost picked: seq<Entry>)
    ensures fresh(cheapest)
    ensures Offers(pool) == PooledOffers(client, decode, pickup, dropoff, passengersNo, |SUPPLIERS|)
    ensures Suppliers(pool) == PooledTags(client, decode, pickup, dropoff, passengersNo, |SUPPLIERS|)
    ensures OnePerCarType(Entries(pool, PooledOffers(client, decode, pickup, dropoff, passengersNo, |SUPPLIERS|)), picked)
    ensures cheapest.elems == SortByPrice(OptionsOf(picked))
    ensures NonIncreasingPrice(cheapest.elems)
    ensures forall i :: 0 <= i < |SUPPLIERS| && Normalize(Fetch(client, SUPPLIERS[i], pickup, dropoff), decode).Null? ==>
              forall o :: o in cheapest.elems ==> o.supplier != Some(SUPPLIERS[i])
  {
    var rideOptions := CollectOptions(client, decode, pickup, dropoff, passengersNo);
    pool := rideOptions.elems;
    PooledOffersTyped(client, decode, pickup, dropoff, passengersNo, |SUPPLIERS|);
    ghost var offers, tags := Offers(pool), Suppliers(pool);
    cheapest, picked := RankCheapest(rideOptions.elems);
    assert Offers(pool) == offers && Suppliers(pool) == tags;
    forall i | 0 <= i < |SUPPLIERS| && Normalize(Fetch(client, SUPPLIERS[i], pickup, dropoff), decode).Null?
      ensures forall o :: o in cheapest.elems ==> o.supplier != Some(SUPPLIERS[i])
    {
      FailedSupplierAbsent(client, decode, pickup, dropoff, passengersNo, pool, picked, i);
    }
  }

}
