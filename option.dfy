/**
 * One priced offer (`entities/Option.java`): a mutable bean whose passenger capacity
 * is derived from its car type by a fixed table, and whose natural order is by price,
 * most expensive first.
 */
module OptionEntity {
  import opened Lang

  /** The car types a supplier publishes; every other string is an unknown car type. */
  const CAR_TYPES: set<string> :=
    {"STANDARD", "EXECUTIVE", "LUXURY", "PEOPLE_CARRIER", "LUXURY_PEOPLE_CARRIER", "MINIBUS"}

  /**
   * The switch in `setMaxPassengers`: the capacity a known car type sets, or `Null`
   * when no case matches (the switch has no default branch).
   */
  function Capacity(carType: string): (seats: Nullable<int32>)
    ensures seats.Some? <==> carType in CAR_TYPES
    ensures seats.Some? ==> 4 <= seats.value <= 16
  {
    if carType == "STANDARD" || carType == "EXECUTIVE" || carType == "LUXURY" then Some(4)
    else if carType == "PEOPLE_CARRIER" || carType == "LUXURY_PEOPLE_CARRIER" then Some(6)
    else if carType == "MINIBUS" then Some(16)
    else Null
  }

  /** The value of `maxPassengers` after the switch runs on `carType` when it held `previous`. */
  function CapacityAfter(carType: string, previous: int32): (seats: int32)
    ensures carType in CAR_TYPES ==> Capacity(carType) == Some(seats) && 4 <= seats <= 16
    ensures carType !in CAR_TYPES ==> seats == previous
  {
    match Capacity(carType)
    case Some(seats) => seats
    case Null => previous
  }

  /** The table, entry by entry, and an unknown car type leaving the capacity alone. */
  lemma CapacityTable(previous: int32)
    ensures CapacityAfter("STANDARD", previous) == 4
    ensures CapacityAfter("EXECUTIVE", previous) == 4
    ensures CapacityAfter("LUXURY", previous) == 4
    ensures CapacityAfter("PEOPLE_CARRIER", previous) == 6
    ensures CapacityAfter("LUXURY_PEOPLE_CARRIER", previous) == 6
    ensures CapacityAfter("MINIBUS", previous) == 16
    ensures forall t :: t !in CAR_TYPES ==> CapacityAfter(t, previous) == previous
  {
  }

  class Option {
    var supplier: Nullable<string>
    var carType: Nullable<string>
    var price: int32
    var maxPassengers: int32

    /** The object invariant the setters keep: a known car type always carries its table capacity. */
    ghost predicate CapacityMatchesCarType()
      reads this
    {
      carType.Some? && carType.value in CAR_TYPES ==> Capacity(carType.value) == Some(maxPassengers)
    }

    /** `Option()`: no supplier, no car type, Java's zero defaults for the two ints. */
    constructor ()
      ensures supplier == Null && carType == Null && price == 0 && maxPassengers == 0
      ensures CapacityMatchesCarType()
    {
      supplier := Null;
      carType := Null;
      price := 0;
      maxPassengers := 0;
    }

    /** `Option(carType, price)`: the capacity comes from the table, and stays 0 for an unknown car type. */
    constructor WithCarType(carType: string, price: int32)
      ensures this.supplier == Null && this.carType == Some(carType) && this.price == price
      ensures maxPassengers == CapacityAfter(carType, 0)
      ensures carType !in CAR_TYPES ==> maxPassengers == 0
      ensures CapacityMatchesCarType()
    {
      supplier := Null;
      this.carType := Some(carType);
      this.price := price;
      maxPassengers := 0;
      new;
      UpdateMaxPassengers();
    }

    /** `setMaxPassengers`: switching on a null car type throws, hence the precondition. */
    method UpdateMaxPassengers()
      requires carType.Some?
      modifies this`maxPassengers
      ensures maxPassengers == CapacityAfter(carType.value, old(maxPassengers))
      ensures CapacityMatchesCarType()
    {
      var seats := Capacity(carType.value);
      if seats.Some? {
        maxPassengers := seats.value;
      }
    }

    method SetSupplier(supplier: Nullable<string>)
      modifies this`supplier
      ensures this.supplier == supplier
      ensures old(CapacityMatchesCarType()) ==> CapacityMatchesCarType()
    {
      this.supplier := supplier;
    }

    /** `setCarType` always re-runs the capacity switch. */
    method SetCarType(carType: string)
      modifies this`carType, this`maxPassengers
      ensures this.carType == Some(carType)
      ensures maxPassengers == CapacityAfter(carType, old(maxPassengers))
      ensures CapacityMatchesCarType()
    {
      this.carType := Some(carType);
      UpdateMaxPassengers();
    }

    method SetPrice(price: int32)
      modifies this`price
      ensures this.price == price
      ensures old(CapacityMatchesCarType()) ==> CapacityMatchesCarType()
    {
      this.price := price;
    }

    function GetSupplier(): Nullable<string> reads this { supplier }
    function GetCarType(): Nullable<string> reads this { carType }
    function GetPrice(): int32 reads this { price }
    function GetMaxPassengers(): int32 reads this { maxPassengers }

    /**
     * `compareTo` as written: `o.price - this.price` in 32-bit arithmetic.
     * For non-negative prices no wrap-around happens and the sign orders by price, descending.
     */
    function CompareTo(o: Option): (r: int32)
      reads this, o
      ensures price >= 0 && o.price >= 0 ==> r as int == o.price as int - price as int
      ensures price >= 0 && o.price >= 0 ==> (r < 0 <==> price > o.price) && (r == 0 <==> price == o.price)
    {
      Wrap32(o.price as int - price as int)
    }

    /** The order `compareTo` evidently means, `Integer.compare(o.price, this.price)`, for every price. */
    function CompareDescending(o: Option): (r: int32)
      reads this, o
      ensures r < 0 <==> price > o.price
      ensures r == 0 <==> price == o.price
      ensures r > 0 <==> price < o.price
    {
      if o.price < price then -1 else if o.price == price then 0 else 1
    }
  }

  /** An option whose car type is one of the six, and which kept the invariant, seats 4 to 16 passengers. */
  lemma KnownCarTypeSeats(o: Option)
    requires o.CapacityMatchesCarType() && o.carType.Some? && o.carType.value in CAR_TYPES
    ensures 4 <= o.maxPassengers <= 16
  {
  }

  /** `compareTo` is reflexive and antisymmetric on non-negative prices, and agrees with the intended order there. */
  lemma CompareToIsPriceDescending(a: Option, b: Option)
    requires a.price >= 0 && b.price >= 0
    ensures a.CompareTo(a) == 0
    ensures a.CompareTo(b) as int == -(b.CompareTo(a) as int)
    ensures (a.CompareTo(b) < 0 <==> a.CompareDescending(b) < 0)
    ensures (a.CompareTo(b) == 0 <==> a.CompareDescending(b) == 0)
  {
  }

  /**
   * Counterexample: with a negative price the subtraction wraps and `compareTo` calls the
   * cheaper option the more expensive one.
   */
  lemma CompareToOverflows(a: Option, b: Option)
    requires a.price == -1 && b.price == 0x7fff_ffff
    ensures a.price < b.price
    ensures a.CompareTo(b) as int == INT_MIN
    ensures a.CompareTo(b) < 0 && a.CompareDescending(b) > 0
  {
    assert b.price as int - a.price as int == 0x8000_0000;
  }
}
