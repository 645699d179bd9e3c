/** Order sizing: whole shares only, rounded toward zero. */
module Sizing {
  import opened Domain

  datatype SizingRule = SizingRule(notionalUsd: Option<real>, quantity: Option<real>)

  /** `ROUND_DOWN`: toward zero. */
  function Truncate(x: real): int {
    if x >= 0.0 then x.Floor else -((-x).Floor)
  }

  /** Quantity and notional for one order, or the configuration error. */
  function ComputeSizing(price: real, rule: SizingRule): Result<(int, real)> {
    if rule.notionalUsd.None? == rule.quantity.None? then Err
    else if price <= 0.0 then Err
    else
      var raw := if rule.notionalUsd.Some? then rule.notionalUsd.value / price else rule.quantity.value;
      Ok((Truncate(raw), Truncate(raw) as real * price))
  }

  /** An order is sized exactly when one rule is set and the price is positive, and its notional is the value of
      its shares. */
  lemma NotionalIsSharesTimesPrice(price: real, rule: SizingRule)
    ensures ComputeSizing(price, rule).Ok? <==> price > 0.0 && (rule.notionalUsd.Some? <==> rule.quantity.None?)
    ensures ComputeSizing(price, rule).Ok? ==>
              ComputeSizing(price, rule).value.1 == ComputeSizing(price, rule).value.0 as real * price
  {
  }

  /** A fixed quantity is cut to whole shares toward zero: none is sent in part, and none too many. */
  lemma FixedQuantityIsWhole(price: real, rule: SizingRule, qty: int)
    requires rule.quantity.Some? && rule.notionalUsd.None? && price > 0.0
    ensures ComputeSizing(price, rule).Ok?
    ensures var wanted := rule.quantity.value;
            ComputeSizing(price, rule).value.0 == qty <==>
              if wanted >= 0.0 then qty as real <= wanted < (qty + 1) as real
              else (qty - 1) as real < wanted <= qty as real
  {
    var wanted := rule.quantity.value;
    assert wanted < 0.0 ==> (-wanted).Floor as real <= -wanted < ((-wanted).Floor + 1) as real;
  }

  /** A notional budget buys the largest whole number of shares it can pay for. */
  lemma SizingIsLargestAffordable(price: real, rule: SizingRule, qty: int)
    requires rule.notionalUsd.Some? && rule.quantity.None? && price > 0.0 && rule.notionalUsd.value >= 0.0
    ensures ComputeSizing(price, rule).Ok?
    ensures ComputeSizing(price, rule).value.0 == qty <==>
            qty >= 0 && qty as real * price <= rule.notionalUsd.value < (qty + 1) as real * price
  {
    var budget := rule.notionalUsd.value;
    var raw := budget / price;
    assert raw * price == budget;
    TimesPositive(0.0, raw, price);
    assert ComputeSizing(price, rule).value.0 == raw.Floor;
    FloorTimes(raw, price, qty);
    assert 0.0 * price == 0.0;
  }

  lemma FloorTimes(raw: real, price: real, qty: int)
    requires price > 0.0
    ensures raw.Floor == qty <==> qty as real * price <= raw * price < (qty + 1) as real * price
  {
    TimesPositive(qty as real, raw, price);
    TimesPositive((qty + 1) as real, raw, price);
  }

  lemma TimesPositive(x: real, y: real, price: real)
    requires price > 0.0
    ensures x * price <= y * price <==> x <= y
  {
    assert y * price - x * price == (y - x) * price;
  }

  /** The order is for zero shares exactly when the budget is below the price of one share. */
  lemma ZeroSharesIff(price: real, rule: SizingRule)
    requires rule.notionalUsd.Some? && rule.quantity.None? && price > 0.0 && rule.notionalUsd.value >= 0.0
    ensures ComputeSizing(price, rule).value.0 == 0 <==> rule.notionalUsd.value < price
  {
    SizingIsLargestAffordable(price, rule, 0);
  }
}
