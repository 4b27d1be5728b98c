# Rideways ride-option aggregation, modelled in Dafny

This is a model of the ride-price aggregation core of the Rideways technical test, written in Java. It has four parts.

- **`RideService`** asks each of three fixed taxi suppliers (dave, eric, jeff) for a ride quote. It turns every supplier response into a `Ride` that holds `Option`s. It can filter the options by passenger capacity and ranks them two ways:
  - one supplier's options, sorted by price, descending;
  - across all suppliers, the cheapest option of each car type, sorted by price, descending.
- **`Option`** is a mutable bean. A fixed table derives its passenger capacity from its car type, and its natural order is by price, most expensive first.
- **`Ride`** is the mutable envelope a supplier answers with. Its default-constructed form is the value for "this supplier gave nothing usable".
- **`CLI`** is the command line. It checks both coordinates against the validation pattern and chooses which service call to make from the shape of its arguments.

The files and modules:

| file | module | what it holds |
|---|---|---|
| `lang.dfy` | `Lang` | Java `null` (`Nullable`), the 32-bit `int` (`int32`, `Wrap32`), small sequence facts |
| `option.dfy` | `OptionEntity` | the capacity table and the `Option` class with its setters and comparators |
| `option_list.dfy` | `OptionLists` | the `List<Option>` object (`OptionList`), the stable price-descending sort and its properties, and the snapshots `Offers` and `Suppliers` of a list's fields |
| `ride.dfy` | `RideEntity` | the `Ride` class |
| `ride_service.dfy` | `RideService` | `findRide`, `findOptions`, `findOptionsByPriceDescending`, `findOptionsByCarTypeWithCheapestSupplier`, `buildParamsMap`, and the pure pipeline they are proved against |
| `cli.dfy` | `CLI` | the validation pattern as a scanner with a round trip to a rendering, `toLowerCase`, `Integer.parseInt`, and `run` as a function from arguments to outcome |
| `scenarios.dfy` | `RideScenarios` | the service test scenarios, stated for every list of options that carries the given offers |

Options, option lists and rides are heap objects, because the source shares them by reference. `Ride.getOptions` returns the very list that `findOptions` hands back without a filter, and `Collections.sort` reorders that list in place.

The methods are proved against pure specification functions:
- `PooledOffers` and `PooledTags`: what the three suppliers contribute, one after another, after the capacity filter;
- `FitOffers` and `Narrow`: the capacity filter;
- `SortByPrice`: a stable insertion sort by price, descending;
- `OnePerCarType`: one representative per car type, namely that group's first cheapest entry.

The pure functions carry their own lemmas:
- the filter keeps exactly the fitting options;
- the filter is monotone and idempotent;
- the sort is sorted, a permutation and stable;
- a strictly descending list has only one sorted arrangement;
- the representative is a minimum of its group.

The network call is the parameter `Client`, a function from (base URL, supplier path, query parameters) to (status, body). Jackson's `readValue` is the parameter `Decoder`, which returns `Null` where it would throw `JsonProcessingException`.

Behaviour of the code worth noting:
- Unknown car types are not dropped. They stay in every list with capacity 0, and get a group of their own in the ranking.
- The per-supplier loop is sequential, with no parallel fan-out.
- Options are filtered inside `findOptions` and tagged afterwards, not tagged first. The pooled result is the same.
- The coordinate pattern allows blanks before each number and around the comma.

## Model

| member | source | states |
|---|---|---|
| `OptionEntity.CapacityAfter` | src/main/java/com/tech/rideways/entities/Option.java:57-66 | a known car type yields its table capacity, between 4 and 16; any other car type yields the previous capacity unchanged |
| `OptionEntity.KnownCarTypeSeats` | src/main/java/com/tech/rideways/entities/Option.java:57-66 | an option whose capacity follows its car type seats between 4 and 16 whenever that car type is a known one |
| `OptionEntity.Capacity` | src/main/java/com/tech/rideways/entities/Option.java:57-66 | a capacity is defined exactly for the six known car types, and it lies between 4 and 16 |
| `OptionEntity.CapacityTable` | src/main/java/com/tech/rideways/entities/Option.java:57-66 | STANDARD, EXECUTIVE and LUXURY give 4, PEOPLE_CARRIER and LUXURY_PEOPLE_CARRIER give 6, MINIBUS gives 16; any other car type leaves the previous capacity as it was |
| `OptionEntity.Option.constructor` | src/main/java/com/tech/rideways/entities/Option.java:21-23 | `Option()`: null supplier and car type, zero price and capacity |
| `OptionEntity.Option.WithCarType` | src/main/java/com/tech/rideways/entities/Option.java:25-30 | `Option(carType, price)`: null supplier, the given car type and price, the table capacity, and 0 for an unknown car type |
| `OptionEntity.Option.UpdateMaxPassengers` | src/main/java/com/tech/rideways/entities/Option.java:57-66 | `setMaxPassengers` sets the table capacity, or keeps the old one for an unknown car type; it needs a non-null car type and keeps the capacity/car-type invariant |
| `OptionEntity.Option.SetSupplier` | src/main/java/com/tech/rideways/entities/Option.java:36-38 | only the supplier changes, to the value given, so the capacity/car-type invariant is kept |
| `OptionEntity.Option.SetCarType` | src/main/java/com/tech/rideways/entities/Option.java:44-47 | sets the car type and always recomputes the capacity from it; nothing else changes |
| `OptionEntity.Option.SetPrice` | src/main/java/com/tech/rideways/entities/Option.java:53-55 | only the price changes, and never the capacity, so the capacity/car-type invariant is kept |
| `OptionEntity.Option.CompareTo` | src/main/java/com/tech/rideways/entities/Option.java:72-75 | `o.price - this.price` with 32-bit wrap-around; for non-negative prices it is exact, negative exactly when this option is dearer, and zero exactly on equal prices |
| `OptionEntity.Option.CompareDescending` | src/main/java/com/tech/rideways/entities/Option.java:72-75 | the intended order for every price: negative, zero or positive exactly when this option is dearer, equal or cheaper |
| `OptionEntity.CompareToIsPriceDescending` | src/main/java/com/tech/rideways/entities/Option.java:72-75 | on non-negative prices `compareTo` is reflexive (zero on itself), antisymmetric, and agrees in sign with the intended order |
| `OptionEntity.CompareToOverflows` | src/main/java/com/tech/rideways/entities/Option.java:72-75 | prices -1 and 2147483647 make `compareTo` wrap to `Integer.MIN_VALUE` and rank the cheaper option first |
| `RideEntity.Ride.constructor` | src/main/java/com/tech/rideways/entities/Ride.java:19-21 | `Ride()` is the empty Ride: null supplier id, pickup and dropoff, and a new, empty option list |
| `RideEntity.Ride.WithRoute` | src/main/java/com/tech/rideways/entities/Ride.java:23-27 | sets supplier id, pickup and dropoff, and leaves the option list null rather than empty |
| `RideEntity.Ride.SetSupplierId` | src/main/java/com/tech/rideways/entities/Ride.java:33-35 | only the supplier id changes |
| `RideEntity.Ride.SetPickup` | src/main/java/com/tech/rideways/entities/Ride.java:41-43 | only the pickup changes |
| `RideEntity.Ride.SetDropoff` | src/main/java/com/tech/rideways/entities/Ride.java:49-51 | only the dropoff changes |
| `RideEntity.Ride.SetOptions` | src/main/java/com/tech/rideways/entities/Ride.java:57-59 | stores the caller's list object itself, so later changes to that list show through the Ride |
| `OptionLists.OptionList.constructor` | src/main/java/com/tech/rideways/service/RideService.java:44 | a new list is empty |
| `OptionLists.OptionList.Add` | src/main/java/com/tech/rideways/service/RideService.java:63-64 | `add` appends one option at the end; only the list's contents change |
| `OptionLists.OptionList.AddAll` | src/main/java/com/tech/rideways/service/RideService.java:52 | `addAll` appends the other list's options in order, and with them their offers and supplier tags; only the list's contents change |
| `OptionLists.OptionList.Sort` | src/main/java/com/tech/rideways/service/RideService.java:87 | `Collections.sort` reorders the list in place into the stable price-descending sort of its old contents: a permutation with non-increasing prices; no option object changes |
| `OptionLists.SortByPrice` | src/main/java/com/tech/rideways/service/RideService.java:87 | the sorted list is a permutation of its input |
| `OptionLists.SortByPriceSorted` | src/main/java/com/tech/rideways/service/RideService.java:87 | no sorted list has a cheaper option before a dearer one |
| `OptionLists.SortByPriceStable` | src/main/java/com/tech/rideways/service/RideService.java:87 | stability: at every price, the options at that price keep their earlier relative order |
| `OptionLists.SortByPriceKeepsSorted` | src/main/java/com/tech/rideways/service/RideService.java:87 | a list already in price-descending order is left unchanged, so sorting is idempotent |
| `OptionLists.SortedArrangementUnique` | src/main/java/com/tech/rideways/service/RideService.java:68 | when no two options share a price, every sorted permutation of the options is the same list |
| `RideService.BuildParamsMap` | src/main/java/com/tech/rideways/service/RideService.java:171-176 | the map has exactly the keys `pickup` and `dropoff`, bound to the given coordinates |
| `RideService.DecodeOffers` | src/main/java/com/tech/rideways/service/RideService.java:156 | each decoded option keeps its car type and price and gets its capacity from the table, 0 for an unknown car type; one offer per decoded option, in order |
| `RideService.NewOption` | src/main/java/com/tech/rideways/service/RideService.java:156 | a new untagged option with the payload's car type and price and the table capacity, so its capacity follows its car type |
| `RideService.NewOptionList` | src/main/java/com/tech/rideways/service/RideService.java:156 | a new list of new, untagged options whose offers are those of the payload, in order |
| `RideService.Materialize` | src/main/java/com/tech/rideways/service/RideService.java:156 | a new Ride carrying the payload's supplier id, pickup, dropoff and options |
| `RideService.TwoParams` | src/main/java/com/tech/rideways/service/RideService.java:171-176 | a map whose keys are exactly `pickup` and `dropoff`, bound to the given coordinates, is the map `buildParamsMap` builds |
| `RideService.Fetch` | src/main/java/com/tech/rideways/service/RideService.java:135 | the response is what the client answers for the taxi API URL, the supplier's path and a parameter map with exactly the keys `pickup` and `dropoff`, bound to the two coordinates |
| `RideService.Normalize` | src/main/java/com/tech/rideways/service/RideService.java:137-161 | a payload comes only from a 200 response whose body decodes to it; any other status, or a body that does not decode, gives no payload |
| `RideService.FindRide` | src/main/java/com/tech/rideways/service/RideService.java:132-162 | any status other than 200, and any body that does not decode, gives the empty Ride; otherwise the Ride describes the payload; the parameters sent are exactly pickup and dropoff |
| `RideService.Fitting` | src/main/java/com/tech/rideways/service/RideService.java:110-112 | the stream filter keeps only options of the list that seat N, and never lengthens it |
| `RideService.NarrowOffers` | src/main/java/com/tech/rideways/service/RideService.java:110-112 | the optional filter keeps only options of the list, and never lengthens it |
| `RideService.Narrow` | src/main/java/com/tech/rideways/service/RideService.java:110-112 | without a passenger count the list is kept as it is; with one it never grows (which options it keeps is `NarrowMembers`) |
| `RideService.FitOffers` | src/main/java/com/tech/rideways/service/RideService.java:110-112 | on offers: every offer kept is an input offer that seats the party, and the list never grows |
| `RideService.FittingMembers` | src/main/java/com/tech/rideways/service/RideService.java:110-112 | the stream filter keeps exactly the options that seat at least N |
| `RideService.NarrowMembers` | src/main/java/com/tech/rideways/service/RideService.java:110-112 | without a passenger count the filter is the identity; with N it keeps exactly the options that seat N |
| `RideService.FindOptions` | src/main/java/com/tech/rideways/service/RideService.java:101-121 | the result is the Ride's options after the optional filter; with no count, or an empty Ride, it is the Ride's own list object; every failure gives the empty Ride |
| `RideService.FindOptionsByPriceDescending` | src/main/java/com/tech/rideways/service/RideService.java:82-90 | the stable price-descending sort of the filtered options: a permutation, non-increasing in price; unfiltered, it is the Ride's own list, sorted in place |
| `RideService.TagWithSupplier` | src/main/java/com/tech/rideways/service/RideService.java:49-51 | every option of the list now names the supplier, and car types, prices and capacities stay as they were |
| `RideService.Tags` | src/main/java/com/tech/rideways/service/RideService.java:50 | exactly `count` tags, each naming the supplier |
| `RideService.FitOffersMembers` | src/main/java/com/tech/rideways/service/RideService.java:110-112 | the filter keeps exactly the offers that seat the party, and everything without a passenger count |
| `RideService.FitOffersAppend` | src/main/java/com/tech/rideways/service/RideService.java:110-112 | filtering a concatenation filters each part, so filtering per supplier and filtering the pool agree |
| `RideService.FitOffersNested` | src/main/java/com/tech/rideways/service/RideService.java:110-112 | filtering for N and then for M ≥ N is filtering once for M; with M = N the filter is idempotent |
| `RideService.FitOffersShrink` | src/main/java/com/tech/rideways/service/RideService.java:110-112 | monotonicity: a larger party never gets an offer a smaller party would not |
| `RideService.NoneFit` | src/main/java/com/tech/rideways/service/RideService.java:110-112 | when no offer seats the party (e.g. 7 passengers against a 6-seat cap) the result is empty |
| `RideService.OffersOfFitting` | src/main/java/com/tech/rideways/service/RideService.java:110-112 | filtering the option objects and filtering their offers give the same offers |
| `RideService.OffersOfNarrow` | src/main/java/com/tech/rideways/service/RideService.java:110-112 | the same, with the optional passenger count |
| `RideService.SupplierOffers` | src/main/java/com/tech/rideways/service/RideService.java:48 | one supplier's contribution has a car type on every offer, seats the party when a count is given, and is empty when that supplier's answer gives no payload |
| `RideService.PooledOffers` | src/main/java/com/tech/rideways/service/RideService.java:47-53 | the first n suppliers' pooled offers all carry a car type and, with a count, all seat the party |
| `RideService.PooledTags` | src/main/java/com/tech/rideways/service/RideService.java:47-53 | one supplier tag per pooled offer, each naming one of the first n suppliers |
| `RideService.FailedSupplierUntagged` | src/main/java/com/tech/rideways/service/RideService.java:47-53 | any supplier whose answer gives no payload (non-200 status or undecodable body) has no tag in the pool, whichever other suppliers fail or succeed |
| `RideService.PooledOffersOfFailures` | src/main/java/com/tech/rideways/service/RideService.java:47-53 | suppliers that all fail or send undecodable bodies contribute no offers and no tags |
| `RideService.NothingPooledNothingRanked` | src/main/java/com/tech/rideways/service/RideService.java:56-65 | an empty pool gives an empty ranking |
| `RideService.PooledOffersTyped` | src/main/java/com/tech/rideways/service/RideService.java:56-57 | every pooled offer has a car type, so `groupingBy` never meets a null key |
| `RideService.OfCarType` | src/main/java/com/tech/rideways/service/RideService.java:56-57 | a group holds exactly the entries of its car type, and it is non-empty exactly when that car type is present |
| `RideService.GroupByCarType` | src/main/java/com/tech/rideways/service/RideService.java:56-57 | one group per car type present and no other key, each group holding exactly that type's entries in pool order |
| `RideService.MinByPrice` | src/main/java/com/tech/rideways/service/RideService.java:63-64 | `min(comparing(getPrice))` returns a member of the group that no member undercuts |
| `RideService.MinByPriceIsFirst` | src/main/java/com/tech/rideways/service/RideService.java:63-64 | on a tie the earliest cheapest entry wins |
| `RideService.Representative` | src/main/java/com/tech/rideways/service/RideService.java:63-64 | the representative of a car type is an entry of that type, and no entry of that type is cheaper |
| `RideService.OnePerCarType` | src/main/java/com/tech/rideways/service/RideService.java:56-65 | a valid choice of representatives has no duplicates, and each is a pooled entry that no entry of its car type undercuts |
| `RideService.RepresentativeIsCheapest` | src/main/java/com/tech/rideways/service/RideService.java:62-65 | a car type's representative is a pooled entry of that type, and no entry of the type is cheaper |
| `RideService.UniqueCheapestIsRepresentative` | src/main/java/com/tech/rideways/service/RideService.java:62-65 | an entry strictly cheaper than every other entry of its car type is that type's representative |
| `RideService.PickedDistinct` | src/main/java/com/tech/rideways/service/RideService.java:62-65 | the representatives are pairwise distinct |
| `RideService.OptionsTaggedBy` | src/main/java/com/tech/rideways/service/RideService.java:48-51 | one supplier's turn: its filtered offers, every option tagged with that supplier |
| `RideService.AddSupplierOptions` | src/main/java/com/tech/rideways/service/RideService.java:47-53 | after supplier i's turn the pool holds the offers and tags of suppliers 0 to i, in that order |
| `RideService.CollectOptions` | src/main/java/com/tech/rideways/service/RideService.java:47-53 | the pool is dave's, then eric's, then jeff's filtered offers, each tagged with its supplier |
| `RideService.CheapestOfGroups` | src/main/java/com/tech/rideways/service/RideService.java:62-65 | each group's first cheapest, once per group, in the arbitrary visiting order; the `orElseThrow` branch is never taken |
| `RideService.RepresentativesOfGroups` | src/main/java/com/tech/rideways/service/RideService.java:56-65 | taking each group's minimum once per group, in any order, yields exactly one representative per car type present |
| `RideService.KeepCheapest` | src/main/java/com/tech/rideways/service/RideService.java:56-65 | grouping then minimum gives one representative per car type present and nothing else |
| `RideService.RankCheapest` | src/main/java/com/tech/rideways/service/RideService.java:56-68 | one representative per car type, sorted by price, descending |
| `RideService.PickedOption` | src/main/java/com/tech/rideways/service/RideService.java:63-64 | an option of a chosen entry is an option of the pool |
| `RideService.PickedFromPool` | src/main/java/com/tech/rideways/service/RideService.java:56-68 | every option of the ranking is one of the pooled options |
| `RideService.FailedSupplierAbsent` | src/main/java/com/tech/rideways/service/RideService.java:47-71 | no option of the ranking is tagged with a supplier whose answer gave no payload |
| `RideService.FindOptionsByCarTypeWithCheapestSupplier` | src/main/java/com/tech/rideways/service/RideService.java:41-71 | the pool is the three suppliers' tagged, filtered offers in supplier order; the result holds exactly one representative per pooled car type, the first cheapest, and is sorted by price, descending; no option in it comes from a supplier whose answer gave no payload |
| `CLI.ScanRender` | src/main/java/com/tech/rideways/cli/CLI.java:22 | every string the validation pattern describes is recognised, and the scanner recovers its parts |
| `CLI.Scan` | src/main/java/com/tech/rideways/cli/CLI.java:22 | every recognised string is well formed and is exactly the rendering of its parts |
| `CLI.Matches` | src/main/java/com/tech/rideways/cli/CLI.java:22 | a string matches exactly when it is some well-formed `lat,lon` of the pattern |
| `CLI.ParametersAreValid` | src/main/java/com/tech/rideways/cli/CLI.java:104-107 | both coordinates are valid exactly when each is some well-formed `lat,lon` of the pattern |
| `CLI.MatchedShape` | src/main/java/com/tech/rideways/cli/CLI.java:22 | a matching coordinate contains a comma and ends in a digit |
| `CLI.ValidationAccepts` | src/main/java/com/tech/rideways/cli/CLI.java:22 | "51.470020,-0.454295" is accepted |
| `CLI.DropoffAccepted` | src/main/java/com/tech/rideways/cli/CLI.java:22 | "53.470020,-0.454295" is accepted |
| `CLI.ValidationAcceptsBlanks` | src/main/java/com/tech/rideways/cli/CLI.java:22 | blanks before the numbers and around the comma are accepted |
| `CLI.RejectsLoneNumber` | src/main/java/com/tech/rideways/cli/CLI.java:22 | "50" is rejected |
| `CLI.RejectsTrailingBlank` | src/main/java/com/tech/rideways/cli/CLI.java:22 | a trailing blank is rejected, since the whole string must match |
| `CLI.RejectsBareDot` | src/main/java/com/tech/rideways/cli/CLI.java:22 | a dot with no digits after it is rejected |
| `CLI.ToLowerCase` | src/main/java/com/tech/rideways/cli/CLI.java:52 | lower-casing keeps the length and maps each character on its own |
| `CLI.ParseInt` | src/main/java/com/tech/rideways/cli/CLI.java:68 | a parsed count comes from an optional sign followed by digits only, and is negative exactly when signed `-` and non-zero |
| `CLI.ParseIntRejects` | src/main/java/com/tech/rideways/cli/CLI.java:88 | the empty string, a lone `-`, trailing letters and a leading blank do not parse; `+7` parses to 7 |
| `CLI.ParseIntDecimalText` | src/main/java/com/tech/rideways/cli/CLI.java:68 | the decimal text of every int parses back to it, and text out of the 32-bit range is rejected |
| `CLI.Run` | src/main/java/com/tech/rideways/cli/CLI.java:25-101 | `NoArguments` exactly for no arguments and `MissingCoordinates` exactly for one; supplier rejection and the index crash happen only in `-s` mode; a call goes out only with two or more arguments, single-supplier exactly when the first is `-s` |
| `CLI.SupplierMode` | src/main/java/com/tech/rideways/cli/CLI.java:47-75 | an unknown lower-cased supplier is rejected first; a known one with fewer than four arguments crashes; invalid coordinates stop it; 5 arguments with an unparsable count crash; otherwise it asks the named supplier's ranking with `args[2]`, `args[3]` and a count exactly when there are 5 arguments |
| `CLI.DefaultMode` | src/main/java/com/tech/rideways/cli/CLI.java:79-95 | invalid coordinates stop it; 3 arguments with an unparsable count crash; otherwise it asks the cheapest-supplier ranking with `args[0]`, `args[1]` and a count exactly when there are 3 arguments; none of the `-s` outcomes occur |
| `CLI.RunNeedsTwoArguments` | src/main/java/com/tech/rideways/cli/CLI.java:27-34 | no arguments returns quietly and one argument is rejected; no service is called |
| `CLI.SupplierCheckedFirst` | src/main/java/com/tech/rideways/cli/CLI.java:47-57 | in `-s` mode an unknown lower-cased supplier is rejected before anything else |
| `CLI.ShortSupplierModeCrashes` | src/main/java/com/tech/rideways/cli/CLI.java:59-60 | `-s` with a known supplier but fewer than four arguments ends in an uncaught index exception |
| `CLI.InvalidCoordinatesStop` | src/main/java/com/tech/rideways/cli/CLI.java:83-86 | invalid coordinates stop `run` before any service call |
| `CLI.DispatchedOnlyWhenValid` | src/main/java/com/tech/rideways/cli/CLI.java:47-91 | a call goes out only with two valid coordinates; `-s` mode calls the single-supplier ranking with the lower-cased known supplier, and otherwise the cheapest-supplier ranking |
| `CLI.PassengersOnlyAtTheirPlace` | src/main/java/com/tech/rideways/cli/CLI.java:68-88 | a passenger count is passed only with exactly 5 arguments in `-s` mode or exactly 3 otherwise, and it is the parsed last argument |
| `CLI.RunDefaultExample` | src/main/java/com/tech/rideways/cli/CLI.java:79-91 | two valid coordinates ask for the cheapest supplier per car type with no passenger count |
| `CLI.RunSupplierExample` | src/main/java/com/tech/rideways/cli/CLI.java:47-71 | `-s Dave` with coordinates and a count asks dave's ranking with the count parsed |
| `RideScenarios.PairForSix` | src/test/java/com/tech/rideways/service/RideServiceTest.java:196-228 | for 6 passengers, EXECUTIVE/279000 is filtered out and PEOPLE_CARRIER/329000 alone remains |
| `RideScenarios.PairSorted` | src/test/java/com/tech/rideways/service/RideServiceTest.java:248-272 | sorting EXECUTIVE/279000, PEOPLE_CARRIER/329000 puts PEOPLE_CARRIER first |
| `RideScenarios.ScenarioRepresentatives` | src/test/java/com/tech/rideways/service/RideServiceTest.java:298-364 | in the three-supplier scenario the representatives are exactly the six first-cheapest options of their car types |
| `RideScenarios.ScenarioRanking` | src/test/java/com/tech/rideways/service/RideServiceTest.java:298-364 | the ranking of the scenario is LUXURY_PEOPLE_CARRIER/eric/695553, STANDARD/dave/392299, PEOPLE_CARRIER/eric/387596, EXECUTIVE/eric/272905, LUXURY/eric/235868, MINIBUS/eric/103801, in that order |
| `RideScenarios.RankScenario` | src/test/java/com/tech/rideways/service/RideServiceTest.java:298-364 | whenever the suppliers answer with the scenario's options, `findOptionsByCarTypeWithCheapestSupplier` returns that ranking with those supplier tags |

## Left out

- HTTP (`service/utils/Client.java`) is the parameter `Client`. It is not modelled as RestTemplate, URI building, its exception handling or its 2-second timeouts. The configurable base URL is the default constant.
- JSON decoding is the parameter `Decoder`. Jackson's field rules are not modelled. A payload option without `car_type`, or a null `options` array, is not modelled: decoded options always carry a car type, and decoded rides always carry a list.
- A 200 response with a null or empty body is not modelled: `readValue` then throws an `IllegalArgumentException` or a `NullPointerException`, which the `catch` of `JsonProcessingException` does not handle, so the whole aggregation aborts. The model's response body is always a string, and `Decoder` maps an undecodable one to `Null`.
- Console output is not modelled. This covers every `System.out` line in `RideService` and `CLI`, the per-status messages of `findRide`'s switch (their only effect is printing), the `forEach` printing loops of `run`, and `toString` of `Option` and `Ride`.
- Spring wiring is not part of this model: `RideController`, its parameter validation, `BadRequestExceptionHandler`, `Application` and `AppConfig`.
- The getters of `Option` and `Ride` are functions that read their field and carry no contract.
- The entry order of the `HashMap` that `groupingBy` builds is not modelled. The loop over the groups picks any unvisited car type, and the ghost `order` records the choice. So the ranking fixes sortedness and contents, but not the relative order of representatives with equal prices.
- `OptionLists.SortByPrice`: the sort orders by `CompareDescending`, not by the wrapping `compareTo`. The two agree whenever `o.price - this.price` does not overflow, for example for all non-negative prices. With overflowing prices, TimSort may reorder differently or throw for a comparator that breaks its contract, and that is not modelled.
- `OptionEntity.Option.CompareTo`: its contract speaks only of non-negative prices. Beyond them, the wrap-around is shown by `CompareToOverflows`.
- The grouping and the minimum read each pooled option's car type and price from a snapshot (`Entry`) taken once the pool is complete. Nothing changes the options between that point and the grouping.
- `findOptions` applied to a Ride whose option list is null would throw. The `Decoder` assumption above (decoded rides always carry a list) excludes such a Ride. With real Jackson, a `"options": null` payload makes `findOptions` throw, and that is not modelled.
- `CLI.ToLowerCase` lower-cases ASCII letters only. Java's locale-sensitive Unicode mapping is not modelled.
- `CLI.ParseInt` accepts ASCII digits only. Java's `Integer.parseInt` also accepts other Unicode decimal digits.
- `CLI.Run` treats only `IndexOutOfBounds` and `NumberFormat` as crashes. The `IOException` the `catch` handles comes from the service, whose call is the outcome `Dispatched` here.

## Findings

| source | as written | input that shows it | evidently intended | confidence | as-written member | corrected member |
|---|---|---|---|---|---|---|
| src/main/java/com/tech/rideways/entities/Option.java:72-75 | `compareTo` returns `o.price - this.price` in 32-bit `int` arithmetic | `this.price = -1`, `o.price = 2147483647`: the difference wraps to -2147483648, so the cheaper option is ordered as the dearer one | `Integer.compare(o.price, this.price)`, descending by price for every pair of prices | not executed | `OptionEntity.CompareToOverflows` | `OptionEntity.Option.CompareDescending` |
