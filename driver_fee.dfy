/** A driver's fee rule: flat or percentage, with an optional minimum. */
module DriverFee {
  import opened Wrappers
  import Money
  import Transit

  const TypeFlat: string := "flat"
  const TypePercentage: string := "percentage"

  class DriverFee {
    /** Any string; the fee service treats everything but "flat" as a percentage. */
    var feeType: string
    var driver: Transit.DriverRef
    var amount: int
    var min: Option<Money.Money>

    /** Stores type, driver and amount as given; an integer minimum becomes
        that amount of money, no minimum stays absent. */
    constructor(feeType: string, driver: Transit.DriverRef, amount: int, min: Option<int>)
      ensures this.feeType == feeType && this.driver == driver && this.amount == amount
      ensures this.min.None? <==> min.None?
      ensures min.Some? ==> Money.ToInt(this.min.value) == min.value
    {
      this.feeType := feeType;
      this.driver := driver;
      this.amount := amount;
      this.min := if min.None? then None else Some(Money.From(min.value));
    }

    method SetType(feeType: string)
      modifies this`feeType
      ensures this.feeType == feeType
    {
      this.feeType := feeType;
    }

    method SetDriver(driver: Transit.DriverRef)
      modifies this`driver
      ensures this.driver == driver
    {
      this.driver := driver;
    }

    method SetAmount(amount: int)
      modifies this`amount
      ensures this.amount == amount
    {
      this.amount := amount;
    }

    method SetMin(min: Option<Money.Money>)
      modifies this`min
      ensures this.min == min
    {
      this.min := min;
    }
  }
}
