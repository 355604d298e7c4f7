/** The in-memory price calculator: a table of unit prices per sku. */
module PriceCalculator {
  import opened Ids
  import opened Wrappers

  /** An amount of money in minor units of its currency. */
  type Money = int

  /** Raised when a sku has no registered price. */
  datatype PriceError = SkuPriceNotFound(skuId: Guid)

  class InMemoryPriceCalculator {
    var skuPrices: map<Guid, Money>

    constructor ()
      ensures skuPrices == map[]
    {
      skuPrices := map[];
    }

    /** The price of `quantity` units of `skuId`: the unit price times the
        quantity, or SkuPriceNotFound when the sku has no price. Reads the
        table and leaves it as it is. */
    method CalculatePrice(skuId: Guid, quantity: int) returns (r: Result<Money, PriceError>)
      ensures r.Failure? <==> skuId !in skuPrices
      ensures r.Failure? ==> r.error == SkuPriceNotFound(skuId)
      ensures r.Success? ==> r.value == skuPrices[skuId] * quantity
    {
      if skuId !in skuPrices {
        return Failure(SkuPriceNotFound(skuId));
      }
      var skuPrice := skuPrices[skuId];
      r := Success(skuPrice * quantity);
    }

    /** Registers `money` as the unit price of `skuId`, replacing any earlier price. */
    method Add(skuId: Guid, money: Money)
      modifies this
      ensures skuPrices == old(skuPrices)[skuId := money]
      ensures forall other :: other != skuId ==> (other in skuPrices <==> other in old(skuPrices))
      ensures forall other :: other != skuId && other in skuPrices ==> skuPrices[other] == old(skuPrices)[other]
    {
      skuPrices := skuPrices[skuId := money];
    }
  }

  /** A sku priced by Add is found afterwards, at the price just added. */
  method PriceAfterAdd(calculator: InMemoryPriceCalculator, skuId: Guid, money: Money, quantity: int)
    returns (r: Result<Money, PriceError>)
    modifies calculator
    ensures r == Success(money * quantity)
  {
    calculator.Add(skuId, money);
    r := calculator.CalculatePrice(skuId, quantity);
  }

  /** Adding a price for one sku changes the quote of no other sku. */
  method AddKeepsOtherPrices(calculator: InMemoryPriceCalculator, skuId: Guid, money: Money,
                             other: Guid, quantity: int)
    returns (before: Result<Money, PriceError>, after: Result<Money, PriceError>)
    requires other != skuId
    modifies calculator
    ensures before == after
  {
    before := calculator.CalculatePrice(other, quantity);
    calculator.Add(skuId, money);
    after := calculator.CalculatePrice(other, quantity);
  }

  /** A fresh calculator knows no price, so every quote fails. */
  method EmptyCalculatorFindsNoPrice(skuId: Guid, quantity: int) returns (r: Result<Money, PriceError>)
    ensures r == Failure(SkuPriceNotFound(skuId))
  {
    var calculator := new InMemoryPriceCalculator();
    r := calculator.CalculatePrice(skuId, quantity);
  }
}
