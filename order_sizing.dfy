/** Order sizing and validation (execution.py:217-220, 254-308): each leg gets half the
    position size, its quantity is quantized to the instrument's lot precision, and the pair is
    skipped when a leg's value exceeds 115% of the allocation or falls below the instrument's
    minimum notional. */
module OrderSizing {
  import opened Wrappers
  import opened Decimals

  /** The `asset` table's constraint columns for one instrument. */
  datatype Asset = Asset(minLotSize: Dec, minNotional: real)

  /** `symbol_allocation = total_allocation / 2`. */
  function LegAllocation(positionSize: real): real {
    positionSize / 2.0
  }

  /** `symbol_alloction_threshold`: 1.15 times the leg allocation, quantized to two decimal
      places with ROUND_HALF_EVEN. */
  function AllocationThreshold(alloc: real): (t: real)
    ensures -0.005 <= t - alloc * 1.15 <= 0.005
    ensures ((t * 100.0).Floor as real) == t * 100.0
    ensures t - alloc * 1.15 == 0.005 || alloc * 1.15 - t == 0.005 ==> IsEven((t * 100.0).Floor)
  {
    QuantizeHalfEvenBounds(alloc * 1.15, -2);
    CentsAreWhole(alloc * 1.15);
    CentsTieEven(alloc * 1.15);
    Quantize(alloc * 1.15, -2, RoundingHalfEven)
  }

  /** On an exact half cent the cents go to the even neighbour. */
  lemma CentsTieEven(x: real)
    ensures var t := Quantize(x, -2, RoundingHalfEven);
      t - x == 0.005 || x - t == 0.005 ==> IsEven((t * 100.0).Floor)
  {
    assert Unit(-2) == 0.01 by { assert Pow10(2) == 100; }
    QuantizeHalfEvenTies(x, -2);
    var t := Quantize(x, -2, RoundingHalfEven);
    if t - x == 0.005 || x - t == 0.005 {
      var n :| IsEven(n) && t == (n as real) * Unit(-2);
      assert t * 100.0 == n as real;
    }
  }

  /** A product of exactly 10.125 lies halfway between 10.12 and 10.13 and gives 10.12. */
  lemma HalfCentTieExample()
    ensures AllocationThreshold(10.125 / 1.15) == 10.12
  {
    var t := AllocationThreshold(10.125 / 1.15);
    assert 10.125 / 1.15 * 1.15 == 10.125;
    var n := (t * 100.0).Floor;
    assert 1012.0 <= n as real <= 1013.0;
    assert n == 1012;
  }

  lemma CentsAreWhole(x: real)
    ensures var t := Quantize(x, -2, RoundingHalfEven); (t * 100.0).Floor as real == t * 100.0
  {
    assert Unit(-2) == 0.01 by { assert Pow10(2) == 100; }
    var k := Round(x / Unit(-2), RoundingHalfEven);
    var t := Quantize(x, -2, RoundingHalfEven);
    assert t == (k as real) * 0.01;
    assert t * 100.0 == k as real;
  }

  /** The target quantity of one leg: `((alloc / price) / lot) * lot` quantized to the lot's own
      exponent rounding up when the lot is below 1, and to a whole number (the lot taken as 1)
      rounding half-even otherwise. */
  function TargetQuantity(alloc: real, price: real, lot: Dec): real
    requires price > 0.0 && lot.Value() > 0.0
  {
    if lot.Value() < 1.0 then
      Quantize(((alloc / price) / lot.Value()) * lot.Value(), lot.exponent, RoundingUp)
    else
      var one := Dec(1, 0);
      Quantize(((alloc / price) / one.Value()) * one.Value(), one.exponent, RoundingHalfEven)
  }

  /** Below 1, the quantity is the least multiple of 10^exponent of the lot that is not below
      alloc / price. */
  lemma FractionalLotRoundsUp(alloc: real, price: real, lot: Dec)
    requires alloc >= 0.0 && price > 0.0 && 0.0 < lot.Value() < 1.0
    ensures var q := TargetQuantity(alloc, price, lot);
      && alloc / price <= q < alloc / price + Unit(lot.exponent)
      && q == (RoundUp(alloc / price / Unit(lot.exponent)) as real) * Unit(lot.exponent)
  {
    var x := alloc / price;
    var l := lot.Value();
    assert (x / l) * l == x;
    QuantizeUpBounds(x, lot.exponent);
  }

  /** ... and no smaller multiple of that unit reaches alloc / price. */
  lemma FractionalLotIsLeast(alloc: real, price: real, lot: Dec, m: int)
    requires alloc >= 0.0 && price > 0.0 && 0.0 < lot.Value() < 1.0
    requires (m as real) * Unit(lot.exponent) >= alloc / price
    ensures TargetQuantity(alloc, price, lot) <= (m as real) * Unit(lot.exponent)
  {
    var x := alloc / price;
    var l := lot.Value();
    assert (x / l) * l == x;
    QuantizeUpLeast(x, lot.exponent, m);
  }

  /** From 1 up, the quantity is the whole number nearest alloc / price, a tie going to the
      even one. */
  lemma WholeLotRoundsHalfEven(alloc: real, price: real, lot: Dec)
    requires price > 0.0 && lot.Value() >= 1.0
    ensures var q := TargetQuantity(alloc, price, lot);
      && q == q.Floor as real
      && -0.5 <= q - alloc / price <= 0.5
      && (q - alloc / price == 0.5 || alloc / price - q == 0.5 ==> IsEven(q.Floor))
  {
    var x := alloc / price;
    assert Dec(1, 0).Value() == 1.0;
    assert (x / 1.0) * 1.0 == x;
    assert Unit(0) == 1.0;
    assert x / Unit(0) == x;
    var k := RoundHalfEven(x);
    assert TargetQuantity(alloc, price, lot) == k as real;
  }

  /** A minimum lot of 0.001 and a ratio of 1.2345 give 1.235. */
  lemma ThousandthLotExample()
    ensures TargetQuantity(1.2345, 1.0, Dec(1, -3)) == 1.235
  {
    assert Dec(1, -3).Value() == 0.001 by {
      assert Pow10(3) == 1000;
    }
    assert Unit(-3) == 0.001;
    var y := 1.2345 / Unit(-3);
    assert y == 1234.5;
    assert RoundUp(y) == 1235;
  }

  /** A whole minimum lot and a ratio of 2.5 give 2 (ties to even). */
  lemma WholeLotTieExample()
    ensures TargetQuantity(2.5, 1.0, Dec(5, 0)) == 2.0
  {
    assert Unit(0) == 1.0;
    assert Dec(5, 0).Value() == 5.0;
    assert Dec(1, 0).Value() == 1.0;
    assert RoundHalfEven(2.5) == 2;
  }

  datatype SizingError = ExceedsAllocation | BelowMinNotional

  /** The two quantities and the two leg values `quantity * price`. */
  datatype Sizing = Sizing(quantity1: real, quantity2: real, value1: real, value2: real)

  /** `quantity * price` of one leg. */
  function LegValue(positionSize: real, price: real, asset: Asset): real
    requires price > 0.0 && asset.minLotSize.Value() > 0.0
  {
    TargetQuantity(LegAllocation(positionSize), price, asset.minLotSize) * price
  }

  /** Size both legs and validate them; the allocation check comes first. */
  function SizeLegs(positionSize: real, price1: real, price2: real, asset1: Asset, asset2: Asset): (r: Result<Sizing, SizingError>)
    requires price1 > 0.0 && price2 > 0.0
    requires asset1.minLotSize.Value() > 0.0 && asset2.minLotSize.Value() > 0.0
    ensures var threshold := AllocationThreshold(LegAllocation(positionSize));
      var v1 := LegValue(positionSize, price1, asset1);
      var v2 := LegValue(positionSize, price2, asset2);
      && (r == Err(ExceedsAllocation) <==> v1 > threshold || v2 > threshold)
      && (r == Err(BelowMinNotional) <==>
            v1 <= threshold && v2 <= threshold && (v1 < asset1.minNotional || v2 < asset2.minNotional))
      && (r.Ok? ==> r.value.value1 == v1 && r.value.value2 == v2)
      && (r.Ok? ==> r.value.quantity1 == TargetQuantity(LegAllocation(positionSize), price1, asset1.minLotSize))
      && (r.Ok? ==> r.value.quantity2 == TargetQuantity(LegAllocation(positionSize), price2, asset2.minLotSize))
  {
    var alloc := LegAllocation(positionSize);
    var threshold := AllocationThreshold(alloc);
    var q1 := TargetQuantity(alloc, price1, asset1.minLotSize);
    var q2 := TargetQuantity(alloc, price2, asset2.minLotSize);
    var v1, v2 := LegValue(positionSize, price1, asset1), LegValue(positionSize, price2, asset2);
    if v1 > threshold || v2 > threshold then Err(ExceedsAllocation)
    else if v1 < asset1.minNotional || v2 < asset2.minNotional then Err(BelowMinNotional)
    else Ok(Sizing(q1, q2, v1, v2))
  }

  /** An accepted sizing keeps both legs between their minimum notional and 1.15 times the leg
      allocation (up to the half-cent of the threshold's rounding). */
  lemma AcceptedLegsWithinBounds(positionSize: real, price1: real, price2: real, asset1: Asset, asset2: Asset)
    requires price1 > 0.0 && price2 > 0.0
    requires asset1.minLotSize.Value() > 0.0 && asset2.minLotSize.Value() > 0.0
    requires SizeLegs(positionSize, price1, price2, asset1, asset2).Ok?
    ensures var s := SizeLegs(positionSize, price1, price2, asset1, asset2).value;
      var cap := LegAllocation(positionSize) * 1.15 + 0.005;
      && asset1.minNotional <= s.value1 <= cap
      && asset2.minNotional <= s.value2 <= cap
  {
  }

  /** An allocation of 100 has threshold 115, so a leg worth 120 is rejected. */
  lemma OverAllocationExample()
    ensures AllocationThreshold(100.0) == 115.0
    ensures SizeLegs(200.0, 120.0, 10.0, Asset(Dec(1, 0), 5.0), Asset(Dec(1, 0), 5.0)) == Err(ExceedsAllocation)
  {
    assert Unit(-2) == 0.01 by { assert Pow10(2) == 100; }
    assert RoundHalfEven(11500.0) == 11500;
    assert Unit(0) == 1.0;
    assert Dec(1, 0).Value() == 1.0;
    assert RoundHalfEven(100.0 / 120.0) == 1;
    assert TargetQuantity(100.0, 120.0, Dec(1, 0)) == 1.0;
  }
}
