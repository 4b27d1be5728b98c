/**
 * One supplier's response envelope (`entities/Ride.java`). Its default-constructed form,
 * with no supplier, no route and an empty option list, is the value the service uses
 * for "this supplier gave no usable data".
 */
module RideEntity {
  import opened Lang
  import opened OptionEntity
  import opened OptionLists

  class Ride {
    var supplierId: Nullable<string>
    var pickup: Nullable<string>
    var dropoff: Nullable<string>
    /** Shared by reference: `getOptions` hands out this very list object. */
    var options: OptionList?

    /** The canonical empty Ride: every field null except an empty option list. */
    ghost predicate IsEmpty()
      reads this, options
    {
      supplierId == Null && pickup == Null && dropoff == Null && options != null && options.elems == []
    }

    /** `Ride()`: a fresh, empty option list and nothing else. */
    constructor ()
      ensures IsEmpty() && fresh(options)
    {
      supplierId := Null;
      pickup := Null;
      dropoff := Null;
      options := new OptionList();
    }

    /** `Ride(supplierId, pickup, dropoff)`: the option list stays null until `setOptions`. */
    constructor WithRoute(supplierId: Nullable<string>, pickup: Nullable<string>, dropoff: Nullable<string>)
      ensures this.supplierId == supplierId && this.pickup == pickup && this.dropoff == dropoff
      ensures options == null
    {
      this.supplierId := supplierId;
      this.pickup := pickup;
      this.dropoff := dropoff;
      options := null;
    }

    function GetSupplierId(): Nullable<string> reads this { supplierId }
    function GetPickup(): Nullable<string> reads this { pickup }
    function GetDropoff(): Nullable<string> reads this { dropoff }
    function GetOptions(): OptionList? reads this { options }

    method SetSupplierId(supplierId: Nullable<string>)
      modifies this`supplierId
      ensures this.supplierId == supplierId
    {
      this.supplierId := supplierId;
    }

    method SetPickup(pickup: Nullable<string>)
      modifies this`pickup
      ensures this.pickup == pickup
    {
      this.pickup := pickup;
    }

    method SetDropoff(dropoff: Nullable<string>)
      modifies this`dropoff
      ensures this.dropoff == dropoff
    {
      this.dropoff := dropoff;
    }

    /** Stores the caller's list itself, not a copy: later changes to it show through the Ride. */
    method SetOptions(options: OptionList?)
      modifies this`options
      ensures this.options == options
    {
      this.options := options;
    }
  }
}
