/** The driver fee service: what a driver earns on a transit. */
module DriverFeeService {
  import opened Wrappers
  import Money
  import Decimal
  import Transit
  import DriverFee

  /** The fee before the minimum: the price less a flat amount, or the
      amount as a percentage of the price for any type but "flat". */
  function RuleFee(price: Money.Money, feeType: string, amount: int): Money.Money {
    if feeType == DriverFee.TypeFlat then Money.Sub(price, Money.From(amount))
    else Money.Percentage(price, amount)
  }

  /** The floor under the fee: the minimum, or zero without one. */
  function Floor(min: Option<Money.Money>): int {
    if min.None? then 0 else Money.ToInt(min.value)
  }

  /** The fee for a price under a rule: the rule's fee raised to the floor. */
  function ComputeFee(price: Money.Money, feeType: string, amount: int, min: Option<Money.Money>): (r: int)
    ensures r >= Money.ToInt(RuleFee(price, feeType, amount)) && r >= Floor(min)
    ensures r == Money.ToInt(RuleFee(price, feeType, amount)) || r == Floor(min)
  {
    var finalFee := RuleFee(price, feeType, amount);
    if Money.ToInt(finalFee) >= Floor(min) then Money.ToInt(finalFee) else Floor(min)
  }

  /** Without a minimum the fee is never negative; with one, never below it. */
  lemma FeeBounds(price: Money.Money, feeType: string, amount: int, min: Option<Money.Money>)
    ensures min.None? ==> ComputeFee(price, feeType, amount, min) >= 0
    ensures min.Some? ==> ComputeFee(price, feeType, amount, min) >= min.value.amount
  {
  }

  /** A flat fee is the price less the amount, a percentage fee the rounded
      share, as long as they clear the floor. */
  lemma FeeAboveFloor(price: Money.Money, feeType: string, amount: int, min: Option<Money.Money>)
    requires Money.ToInt(RuleFee(price, feeType, amount)) >= Floor(min)
    ensures feeType == DriverFee.TypeFlat ==> ComputeFee(price, feeType, amount, min) == price.amount - amount
    ensures feeType != DriverFee.TypeFlat ==>
      ComputeFee(price, feeType, amount, min) == Money.RoundHundredth(price.amount * amount)
  {
  }

  /** On a price of 100: flat 10 gives 90, 20 per cent gives 20, and 5 per
      cent with a minimum of 10 gives the minimum. */
  lemma FeeExamples()
    ensures ComputeFee(Money.Money(100), DriverFee.TypeFlat, 10, None) == 90
    ensures ComputeFee(Money.Money(100), DriverFee.TypePercentage, 20, None) == 20
    ensures ComputeFee(Money.Money(100), DriverFee.TypePercentage, 5, Some(Money.Money(10))) == 10
  {
  }

  /** `calculateDriverFee`, over the transit repository and the fee rules
      by driver. A fee already recorded on the transit wins; otherwise the
      driver's rule applies to the transit's price. Reading a price or a
      driver the transit does not have is outside the model. `fees` is the
      fee repository looked up by driver, so `fees[d]` is the rule of driver d. */
  method CalculateDriverFee(transitId: int, transits: map<int, Transit.Transit>,
                            fees: map<Transit.DriverRef, DriverFee.DriverFee>) returns (r: Result<int>)
    requires transitId in transits && transits[transitId].driversFee.None? ==>
      transits[transitId].driver.Some? && (transits[transitId].driver.value in fees ==> transits[transitId].price.Some?)
    ensures transitId !in transits ==>
      r == Err(InvalidArgument("transit does not exist, id = " + Decimal.IntToString(transitId)))
    ensures transitId in transits && transits[transitId].driversFee.Some? ==>
      r == Ok(Money.ToInt(transits[transitId].driversFee.value))
    ensures transitId in transits && transits[transitId].driversFee.None? && transits[transitId].driver.value !in fees ==>
      r == Err(InvalidArgument("driver Fees not defined for driver, driver id = "
                               + Decimal.IntToString(transits[transitId].driver.value)))
    ensures transitId in transits && transits[transitId].driversFee.None? && transits[transitId].driver.value in fees ==>
      var fee := fees[transits[transitId].driver.value];
      r == Ok(ComputeFee(transits[transitId].price.value, fee.feeType, fee.amount, fee.min))
  {
    if transitId !in transits {
      return Err(InvalidArgument("transit does not exist, id = " + Decimal.IntToString(transitId)));
    }
    var transit := transits[transitId];
    if transit.driversFee.Some? {
      return Ok(Money.ToInt(transit.driversFee.value));
    }
    var transitPrice := transit.price;
    var driver := transit.driver.value;
    if driver !in fees {
      return Err(InvalidArgument("driver Fees not defined for driver, driver id = " + Decimal.IntToString(driver)));
    }
    var driverFee := fees[driver];
    // The source's steps; the ensures ties their result to ComputeFee.
    var finalFee;
    if driverFee.feeType == DriverFee.TypeFlat {
      finalFee := Money.Sub(transitPrice.value, Money.From(driverFee.amount));
    } else {
      finalFee := Money.Percentage(transitPrice.value, driverFee.amount);
    }
    var floor := if driverFee.min.None? then 0 else Money.ToInt(driverFee.min.value);
    r := Ok(if Money.ToInt(finalFee) >= floor then Money.ToInt(finalFee) else floor);
  }
}
