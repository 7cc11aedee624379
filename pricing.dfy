/**
 * The per-line pricing formulas shared by the financial breakdown and the
 * equipment and labor listing endpoints of backend/server.py.
 */
module Pricing {
  import opened Wrappers
  import opened Money
  import opened QuoteData

  /** The markup the listing falls back to when no quote is found for a system. */
  const FallbackMarkup: real := 20.0

  /**
   * The markup percent that applies to a line: its override when the
   * override is truthy; a missing override and an override of 0 both fall
   * back to the quote's default.
   */
  function EffectiveMarkup(markupOverride: Option<real>, markupDefault: real): (m: real)
    ensures markupOverride.Some? && markupOverride.value != 0.0 ==> m == markupOverride.value
    ensures markupOverride.None? || markupOverride.value == 0.0 ==> m == markupDefault
  {
    if markupOverride.Some? && markupOverride.value != 0.0 then markupOverride.value else markupDefault
  }

  /** Sell price of one unit: cost plus markup percent. */
  function UnitPrice(unitCost: real, markup: real): real {
    unitCost * (1.0 + markup / 100.0)
  }

  /** The markup that applies to an equipment line under the quote's default markup. */
  function LineMarkup(e: Equipment, markupDefault: real): real {
    EffectiveMarkup(e.markupOverride, markupDefault)
  }

  /** Sell price of one unit of an equipment line. */
  function LineUnitPrice(e: Equipment, markupDefault: real): real {
    UnitPrice(e.unitCost, LineMarkup(e, markupDefault))
  }

  /** Unrounded cost of an equipment line. */
  function LineCost(e: Equipment): real {
    Scaled(e.unitCost, e.quantity)
  }

  /** Unrounded sell price of an equipment line. */
  function LinePrice(e: Equipment, markupDefault: real): real {
    Scaled(LineUnitPrice(e, markupDefault), e.quantity)
  }

  /** The price of a line exceeds its cost by exactly the markup share of the cost. */
  lemma LineMarginIsMarkupOfCost(e: Equipment, markupDefault: real)
    ensures LinePrice(e, markupDefault) - LineCost(e)
         == LineCost(e) * LineMarkup(e, markupDefault) / 100.0
  {
    var m := LineMarkup(e, markupDefault);
    var c, q := e.unitCost, e.quantity as real;
    calc {
      LinePrice(e, markupDefault) - LineCost(e);
      c * (1.0 + m / 100.0) * q - c * q;
      { assert c * (1.0 + m / 100.0) * q == c * q + c * q * (m / 100.0); }
      c * q * (m / 100.0);
    }
  }

  // ---------------------------------------------------------------------------
  // GET /equipment/system/{id}: each fetched row gains priced fields.

  /** A fetched equipment row with its priced fields, each in hundredths. */
  datatype ListedEquipment = ListedEquipment(
    row: Equipment,
    unitPrice: int,
    totalCost: int,
    totalPrice: int,
    marginDollars: int,
    marginPercent: int)

  /** The priced row the equipment listing returns for one equipment row. */
  function ListedEquipmentOf(e: Equipment, defaultMarkup: real): ListedEquipment {
    ListedEquipment(e,
      Round2(LineUnitPrice(e, defaultMarkup)),
      Round2(LineCost(e)),
      Round2(LinePrice(e, defaultMarkup)),
      Round2(Scaled(LineUnitPrice(e, defaultMarkup) - e.unitCost, e.quantity)),
      Round2(LineMarkup(e, defaultMarkup)))
  }

  /**
   * Prices the equipment rows of one system. `quoteMarkup` is what the
   * lookup of the owning quote's default markup finds: None when no quote
   * row is found, Some(None) when the column is NULL, which `float()`
   * rejects before any row is priced.
   */
  method ListEquipmentBySystem(rows: seq<Equipment>, quoteMarkup: Option<Option<real>>)
    returns (r: Result<seq<ListedEquipment>, ApiError>)
    ensures quoteMarkup == Some(None) ==> r == Failure(ServerError)
    ensures quoteMarkup != Some(None) ==> r.Success? && |r.value| == |rows|
    ensures quoteMarkup.None? ==> forall i :: 0 <= i < |rows| ==> r.value[i] == ListedEquipmentOf(rows[i], FallbackMarkup)
    ensures quoteMarkup.Some? && quoteMarkup.value.Some? ==>
      forall i :: 0 <= i < |rows| ==> r.value[i] == ListedEquipmentOf(rows[i], quoteMarkup.value.value)
  {
    var defaultMarkup := FallbackMarkup;
    if quoteMarkup.Some? {
      if quoteMarkup.value.None? {
        return Failure(ServerError);
      }
      defaultMarkup := quoteMarkup.value.value;
    }
    var priced := [];
    var i := 0;
    while i < |rows|
      invariant 0 <= i <= |rows|
      invariant |priced| == i
      invariant forall j :: 0 <= j < i ==> priced[j] == ListedEquipmentOf(rows[j], defaultMarkup)
    {
      priced := priced + [ListedEquipmentOf(rows[i], defaultMarkup)];
      i := i + 1;
    }
    return Success(priced);
  }

  /** With non-negative cost, quantity and markup, every listed amount is non-negative. */
  lemma ListedEquipmentNonNegative(e: Equipment, defaultMarkup: real)
    requires 0.0 <= e.unitCost && 0 <= e.quantity
    requires 0.0 <= LineMarkup(e, defaultMarkup)
    ensures var l := ListedEquipmentOf(e, defaultMarkup);
      0 <= l.unitPrice && 0 <= l.totalCost && 0 <= l.totalPrice && 0 <= l.marginDollars
  {
    var up := LineUnitPrice(e, defaultMarkup);
    MarkupGain(e.unitCost, LineMarkup(e, defaultMarkup));
    Round2NonNegative(up);
    ScaledNonNegative(e.unitCost, e.quantity);
    ScaledNonNegative(up, e.quantity);
    ScaledNonNegative(up - e.unitCost, e.quantity);
  }

  /** A non-negative markup raises a non-negative cost by the markup share of it. */
  lemma MarkupGain(c: real, m: real)
    requires 0.0 <= c && 0.0 <= m
    ensures 0.0 <= UnitPrice(c, m) - c == c * (m / 100.0)
  {
    assert 0.0 <= c * (m / 100.0);
  }

  /** Rounding a non-negative amount times a non-negative quantity stays non-negative. */
  lemma ScaledNonNegative(a: real, n: int)
    requires 0.0 <= a && 0 <= n
    ensures 0 <= Round2(Scaled(a, n))
  {
    assert 0.0 <= a * n as real;
    Round2NonNegative(Scaled(a, n));
  }

  // ---------------------------------------------------------------------------
  // GET /labor/room/{id}: each fetched row gains priced fields.

  /** A fetched labor row with its priced fields, each in hundredths. */
  datatype ListedLabor = ListedLabor(
    row: Labor,
    totalCost: int,
    totalPrice: int,
    marginDollars: int,
    marginPercent: int)

  /** The priced row the labor listing returns for one labor row. */
  function ListedLaborOf(l: Labor): ListedLabor {
    var totalCost := Round2(l.costRate * l.hours);
    var totalPrice := Round2(l.sellRate * l.hours);
    var margin := Round2(AsReal(totalPrice) - AsReal(totalCost));
    ListedLabor(l, totalCost, totalPrice, margin,
                Round2(if totalCost > 0 then AsReal(margin) / AsReal(totalCost) * 100.0 else 0.0))
  }

  /** Prices the labor rows of one room. */
  method ListLaborByRoom(rows: seq<Labor>) returns (priced: seq<ListedLabor>)
    ensures |priced| == |rows|
    ensures forall i :: 0 <= i < |rows| ==> priced[i] == ListedLaborOf(rows[i])
  {
    priced := [];
    var i := 0;
    while i < |rows|
      invariant 0 <= i <= |rows|
      invariant |priced| == i
      invariant forall j :: 0 <= j < i ==> priced[j] == ListedLaborOf(rows[j])
    {
      priced := priced + [ListedLaborOf(rows[i])];
      i := i + 1;
    }
  }

  /**
   * The listed labor margin is exactly price minus cost, and the margin
   * percent is margin over cost, or 0 when the rounded cost is not positive.
   */
  lemma ListedLaborIdentities(l: Labor)
    ensures var r := ListedLaborOf(l);
      && r.marginDollars == r.totalPrice - r.totalCost
      && (r.totalCost <= 0 ==> r.marginPercent == 0)
      && (r.totalCost > 0 ==>
            r.marginPercent == Round2((r.totalPrice - r.totalCost) as real / r.totalCost as real * 100.0))
  {
    var r := ListedLaborOf(l);
    Round2OfSum(r.totalPrice, r.totalCost, 0);
    Round2OfHundredths(0);
    if r.totalCost > 0 {
      RatioOfHundredths(r.marginDollars, r.totalCost);
    }
  }
}
