/**
 * The financial breakdown of a quote (GET /quotes/{id}/financials in
 * backend/server.py): priced equipment, labor and service lines per room,
 * room rollups scaled by the room's quantity, and quote totals with tax,
 * grand total and margin percent.
 *
 * The endpoint works by accumulating into dictionaries inside nested loops;
 * `PriceSystem`, `PriceRoom`, `PriceRooms` and `GetQuoteFinancials` do the
 * same, and each is proved to return what the functions `SystemDataOf`,
 * `RoomDataOf`, `RoomsOf` and `FinancialsOf` describe. The lemmas then state
 * what those values satisfy. Every rounded amount is a count of hundredths.
 */
module Financials {
  import opened Wrappers
  import opened Money
  import opened QuoteData
  import opened Pricing

  // ---------------------------------------------------------------------------
  // The response

  datatype EquipmentLine = EquipmentLine(
    id: int,
    itemName: string,
    quantity: int,
    unitCost: int,
    unitPrice: int,
    totalCost: int,
    totalPrice: int,
    margin: int,
    markupPercent: int,
    taxExempt: bool)

  datatype SystemData = SystemData(
    id: int,
    name: string,
    equipment: seq<EquipmentLine>,
    equipmentCost: int,
    equipmentPrice: int,
    margin: int)

  datatype LaborLine = LaborLine(
    id: int,
    roleName: string,
    costRate: real,
    sellRate: real,
    hours: real,
    totalCost: int,
    totalPrice: int,
    margin: int)

  datatype ServiceLine = ServiceLine(id: int, serviceName: string, percentage: real, calculatedPrice: int)

  datatype RoomData = RoomData(
    id: int,
    name: string,
    quantity: int,
    systems: seq<SystemData>,
    labor: seq<LaborLine>,
    services: seq<ServiceLine>,
    equipmentCost: int,
    equipmentPrice: int,
    laborCost: int,
    laborPrice: int,
    servicesPrice: int,
    subtotal: int,
    margin: int)

  datatype Totals = Totals(
    equipmentCost: int,
    equipmentPrice: int,
    equipmentMargin: int,
    laborCost: int,
    laborPrice: int,
    laborMargin: int,
    servicesCost: int,
    servicesPrice: int,
    subtotal: int,
    tax: int,
    grandTotal: int,
    totalMargin: int,
    marginPercent: int)

  datatype Financials = Financials(rooms: seq<RoomData>, totals: Totals)

  // ---------------------------------------------------------------------------
  // Lines

  /** The priced equipment line the breakdown lists; its amounts are rounded for display only. */
  function EquipmentLineOf(e: Equipment, markupDefault: real): EquipmentLine {
    EquipmentLine(e.id, e.itemName, e.quantity,
      Round2(e.unitCost),
      Round2(LineUnitPrice(e, markupDefault)),
      Round2(LineCost(e)),
      Round2(LinePrice(e, markupDefault)),
      Round2(LinePrice(e, markupDefault) - LineCost(e)),
      Round2(LineMarkup(e, markupDefault)),
      e.taxExempt)
  }

  /** Unrounded cost and sell price of a labor line. */
  function LaborCost(l: Labor): real { l.costRate * l.hours }
  function LaborPrice(l: Labor): real { l.sellRate * l.hours }

  function LaborLineOf(l: Labor): LaborLine {
    LaborLine(l.id, l.roleName, l.costRate, l.sellRate, l.hours,
      Round2(LaborCost(l)), Round2(LaborPrice(l)), Round2(LaborPrice(l) - LaborCost(l)))
  }

  /** Unrounded price of a service: a percentage of the room's equipment sell price. */
  function ServicePrice(s: Service, equipmentPrice: real): real {
    equipmentPrice * (s.percentage / 100.0)
  }

  function ServiceLineOf(s: Service, equipmentPrice: real): ServiceLine {
    ServiceLine(s.id, s.serviceName, s.percentage, Round2(ServicePrice(s, equipmentPrice)))
  }

  // ---------------------------------------------------------------------------
  // Priced lines, in the order the rows are fetched

  function EquipmentLinesOf(es: seq<Equipment>, markupDefault: real): (lines: seq<EquipmentLine>)
    ensures |lines| == |es|
  {
    if |es| == 0 then []
    else EquipmentLinesOf(es[..|es| - 1], markupDefault) + [EquipmentLineOf(es[|es| - 1], markupDefault)]
  }

  function LaborLinesOf(ls: seq<Labor>): (lines: seq<LaborLine>)
    ensures |lines| == |ls|
  {
    if |ls| == 0 then [] else LaborLinesOf(ls[..|ls| - 1]) + [LaborLineOf(ls[|ls| - 1])]
  }

  function ServiceLinesOf(ss: seq<Service>, equipmentPrice: real): (lines: seq<ServiceLine>)
    ensures |lines| == |ss|
  {
    if |ss| == 0 then []
    else ServiceLinesOf(ss[..|ss| - 1], equipmentPrice) + [ServiceLineOf(ss[|ss| - 1], equipmentPrice)]
  }

  // ---------------------------------------------------------------------------
  // Unrounded running totals, accumulated left to right as the loops do

  function EquipmentPriceSum(es: seq<Equipment>, markupDefault: real): real {
    if |es| == 0 then 0.0
    else EquipmentPriceSum(es[..|es| - 1], markupDefault) + LinePrice(es[|es| - 1], markupDefault)
  }

  function ServicesPriceSum(ss: seq<Service>, equipmentPrice: real): real {
    if |ss| == 0 then 0.0
    else ServicesPriceSum(ss[..|ss| - 1], equipmentPrice) + ServicePrice(ss[|ss| - 1], equipmentPrice)
  }

  function Percentage(s: Service): real { s.percentage }

  /** Field accessors, so that totals over systems and rooms can name them. */
  function SystemCost(sd: SystemData): int { sd.equipmentCost }
  function SystemPrice(sd: SystemData): int { sd.equipmentPrice }
  function RoomEquipmentCost(rd: RoomData): int { rd.equipmentCost }
  function RoomEquipmentPrice(rd: RoomData): int { rd.equipmentPrice }
  function RoomLaborCost(rd: RoomData): int { rd.laborCost }
  function RoomLaborPrice(rd: RoomData): int { rd.laborPrice }
  function RoomServicesPrice(rd: RoomData): int { rd.servicesPrice }

  // ---------------------------------------------------------------------------
  // Systems

  /** A system: its lines, and its equipment totals rounded once after summing the unrounded lines. */
  function SystemDataOf(s: System, markupDefault: real): SystemData {
    var cost := Round2(SumOf(s.equipment, LineCost));
    var price := Round2(EquipmentPriceSum(s.equipment, markupDefault));
    SystemData(s.id, s.name, EquipmentLinesOf(s.equipment, markupDefault), cost, price,
      Round2(AsReal(price) - AsReal(cost)))
  }

  function SystemsOf(ss: seq<System>, markupDefault: real): (priced: seq<SystemData>)
    ensures |priced| == |ss|
  {
    if |ss| == 0 then [] else SystemsOf(ss[..|ss| - 1], markupDefault) + [SystemDataOf(ss[|ss| - 1], markupDefault)]
  }

  lemma {:induction false} SystemsOfIndex(ss: seq<System>, markupDefault: real, i: int)
    requires 0 <= i < |ss|
    ensures SystemsOf(ss, markupDefault)[i] == SystemDataOf(ss[i], markupDefault)
  {
    if i < |ss| - 1 {
      SystemsOfIndex(ss[..|ss| - 1], markupDefault, i);
    }
  }

  method PriceSystem(s: System, markupDefault: real) returns (sd: SystemData)
    ensures sd == SystemDataOf(s, markupDefault)
  {
    var lines: seq<EquipmentLine> := [];
    var cost, price := 0.0, 0.0;
    var i := 0;
    while i < |s.equipment|
      invariant 0 <= i <= |s.equipment|
      invariant lines == EquipmentLinesOf(s.equipment[..i], markupDefault)
      invariant cost == SumOf(s.equipment[..i], LineCost)
      invariant price == EquipmentPriceSum(s.equipment[..i], markupDefault)
    {
      var e := s.equipment[i];
      assert s.equipment[..i + 1][..i] == s.equipment[..i];
      lines := lines + [EquipmentLineOf(e, markupDefault)];
      cost := cost + LineCost(e);
      price := price + LinePrice(e, markupDefault);
      i := i + 1;
    }
    assert s.equipment[..i] == s.equipment;
    var roundedCost, roundedPrice := Round2(cost), Round2(price);
    sd := SystemData(s.id, s.name, lines, roundedCost, roundedPrice,
      Round2(AsReal(roundedPrice) - AsReal(roundedCost)));
  }

  // ---------------------------------------------------------------------------
  // Rooms

  /**
   * The room's totals before the quantity multiply: equipment as the total of
   * the rounded system amounts, labor and services unrounded.
   */
  datatype RoomSums = RoomSums(
    systems: seq<SystemData>,
    equipmentCost: int,
    equipmentPrice: int,
    laborCost: real,
    laborPrice: real,
    servicesPrice: real)

  function RoomSumsOf(r: Room, markupDefault: real): RoomSums {
    var systems := SystemsOf(r.systems, markupDefault);
    var equipmentPrice := Total(systems, SystemPrice);
    RoomSums(systems, Total(systems, SystemCost), equipmentPrice,
      SumOf(r.labor, LaborCost), SumOf(r.labor, LaborPrice),
      ServicesPriceSum(r.services, AsReal(equipmentPrice)))
  }

  /**
   * A room: every total multiplied by the room quantity exactly once and then
   * rounded; subtotal and margin are taken from those rounded values.
   */
  function RoomDataOf(r: Room, markupDefault: real): RoomData {
    var sums := RoomSumsOf(r, markupDefault);
    var equipmentCost := Round2(Scaled(AsReal(sums.equipmentCost), r.quantity));
    var equipmentPrice := Round2(Scaled(AsReal(sums.equipmentPrice), r.quantity));
    var laborCost := Round2(Scaled(sums.laborCost, r.quantity));
    var laborPrice := Round2(Scaled(sums.laborPrice, r.quantity));
    var servicesPrice := Round2(Scaled(sums.servicesPrice, r.quantity));
    RoomData(r.id, r.name, r.quantity, sums.systems,
      LaborLinesOf(r.labor), ServiceLinesOf(r.services, AsReal(sums.equipmentPrice)),
      equipmentCost, equipmentPrice, laborCost, laborPrice, servicesPrice,
      Round2(AsReal(equipmentPrice) + AsReal(laborPrice) + AsReal(servicesPrice)),
      Round2((AsReal(equipmentPrice) - AsReal(equipmentCost)) + (AsReal(laborPrice) - AsReal(laborCost))
             + AsReal(servicesPrice)))
  }

  /** Prices the systems of a room and accumulates their rounded totals. */
  method PriceSystems(r: Room, markupDefault: real) returns (systems: seq<SystemData>, cost: int, price: int)
    ensures systems == RoomSumsOf(r, markupDefault).systems
    ensures cost == RoomSumsOf(r, markupDefault).equipmentCost
    ensures price == RoomSumsOf(r, markupDefault).equipmentPrice
  {
    systems, cost, price := [], 0, 0;
    var i := 0;
    while i < |r.systems|
      invariant 0 <= i <= |r.systems|
      invariant systems == SystemsOf(r.systems[..i], markupDefault)
      invariant cost == Total(systems, SystemCost)
      invariant price == Total(systems, SystemPrice)
    {
      var sd := PriceSystem(r.systems[i], markupDefault);
      assert r.systems[..i + 1][..i] == r.systems[..i];
      TotalAppend(systems, sd, SystemCost);
      TotalAppend(systems, sd, SystemPrice);
      systems := systems + [sd];
      cost := cost + sd.equipmentCost;
      price := price + sd.equipmentPrice;
      i := i + 1;
    }
    assert r.systems[..i] == r.systems;
  }

  /** Prices the labor lines of a room and accumulates their unrounded amounts. */
  method PriceLabor(r: Room) returns (lines: seq<LaborLine>, cost: real, price: real)
    ensures lines == LaborLinesOf(r.labor)
    ensures cost == SumOf(r.labor, LaborCost)
    ensures price == SumOf(r.labor, LaborPrice)
  {
    lines, cost, price := [], 0.0, 0.0;
    var i := 0;
    while i < |r.labor|
      invariant 0 <= i <= |r.labor|
      invariant lines == LaborLinesOf(r.labor[..i])
      invariant cost == SumOf(r.labor[..i], LaborCost)
      invariant price == SumOf(r.labor[..i], LaborPrice)
    {
      var l := r.labor[i];
      assert r.labor[..i + 1][..i] == r.labor[..i];
      lines := lines + [LaborLineOf(l)];
      cost := cost + LaborCost(l);
      price := price + LaborPrice(l);
      i := i + 1;
    }
    assert r.labor[..i] == r.labor;
  }

  /** Prices the services of a room against its pre-multiplication equipment price. */
  method PriceServices(r: Room, equipmentPrice: real) returns (lines: seq<ServiceLine>, price: real)
    ensures lines == ServiceLinesOf(r.services, equipmentPrice)
    ensures price == ServicesPriceSum(r.services, equipmentPrice)
  {
    lines, price := [], 0.0;
    var i := 0;
    while i < |r.services|
      invariant 0 <= i <= |r.services|
      invariant lines == ServiceLinesOf(r.services[..i], equipmentPrice)
      invariant price == ServicesPriceSum(r.services[..i], equipmentPrice)
    {
      var s := r.services[i];
      assert r.services[..i + 1][..i] == r.services[..i];
      lines := lines + [ServiceLineOf(s, equipmentPrice)];
      price := price + ServicePrice(s, equipmentPrice);
      i := i + 1;
    }
    assert r.services[..i] == r.services;
  }

  method PriceRoom(r: Room, markupDefault: real) returns (rd: RoomData)
    ensures rd == RoomDataOf(r, markupDefault)
  {
    var systems, systemsCost, systemsPrice := PriceSystems(r, markupDefault);
    var labor, laborSum, laborPriceSum := PriceLabor(r);
    var services, servicesSum := PriceServices(r, AsReal(systemsPrice));
    var equipmentCost := Round2(Scaled(AsReal(systemsCost), r.quantity));
    var equipmentPrice := Round2(Scaled(AsReal(systemsPrice), r.quantity));
    var laborCost := Round2(Scaled(laborSum, r.quantity));
    var laborPrice := Round2(Scaled(laborPriceSum, r.quantity));
    var servicesPrice := Round2(Scaled(servicesSum, r.quantity));
    rd := RoomData(r.id, r.name, r.quantity, systems, labor, services,
      equipmentCost, equipmentPrice, laborCost, laborPrice, servicesPrice,
      Round2(AsReal(equipmentPrice) + AsReal(laborPrice) + AsReal(servicesPrice)),
      Round2((AsReal(equipmentPrice) - AsReal(equipmentCost)) + (AsReal(laborPrice) - AsReal(laborCost))
             + AsReal(servicesPrice)));
  }

  // ---------------------------------------------------------------------------
  // Quote totals

  /** Tax at a percentage rate on an amount, rounded to hundredths. */
  function TaxOn(amount: real, taxRate: real): int {
    Round2(amount * (taxRate / 100.0))
  }

  /**
   * The quote totals from the totals of the room values: each re-rounded,
   * margins from the rounded totals, services at no cost, tax on the
   * equipment sell price only and only when tax is enabled, and a margin
   * percent guarded against a total cost that is not positive.
   */
  function TotalsFrom(equipmentCostSum: int, equipmentPriceSum: int, laborCostSum: int,
                      laborPriceSum: int, servicesPriceSum: int, taxEnabled: bool, taxRate: real): Totals {
    var equipmentCost := Round2(AsReal(equipmentCostSum));
    var equipmentPrice := Round2(AsReal(equipmentPriceSum));
    var laborCost := Round2(AsReal(laborCostSum));
    var laborPrice := Round2(AsReal(laborPriceSum));
    var servicesPrice := Round2(AsReal(servicesPriceSum));
    var equipmentMargin := Round2(AsReal(equipmentPrice) - AsReal(equipmentCost));
    var laborMargin := Round2(AsReal(laborPrice) - AsReal(laborCost));
    var subtotal := Round2(AsReal(equipmentPrice) + AsReal(laborPrice) + AsReal(servicesPrice));
    var tax := if taxEnabled then TaxOn(AsReal(equipmentPrice), taxRate) else 0;
    var totalMargin := Round2(AsReal(equipmentMargin) + AsReal(laborMargin) + AsReal(servicesPrice));
    var totalCost := AsReal(equipmentCost) + AsReal(laborCost);
    Totals(equipmentCost, equipmentPrice, equipmentMargin, laborCost, laborPrice, laborMargin,
      0, servicesPrice, subtotal, tax, Round2(AsReal(subtotal) + AsReal(tax)), totalMargin,
      if totalCost > 0.0 then Round2(AsReal(totalMargin) / totalCost * 100.0) else 0)
  }

  /** The quote totals over the room breakdowns. */
  function TotalsOf(rooms: seq<RoomData>, taxEnabled: bool, taxRate: real): Totals {
    TotalsFrom(Total(rooms, RoomEquipmentCost), Total(rooms, RoomEquipmentPrice), Total(rooms, RoomLaborCost),
      Total(rooms, RoomLaborPrice), Total(rooms, RoomServicesPrice), taxEnabled, taxRate)
  }

  /** The room breakdowns of a quote, in the order the rooms are fetched. */
  function RoomsOf(rooms: seq<Room>, markupDefault: real): (priced: seq<RoomData>)
    ensures |priced| == |rooms|
  {
    if |rooms| == 0 then []
    else RoomsOf(rooms[..|rooms| - 1], markupDefault) + [RoomDataOf(rooms[|rooms| - 1], markupDefault)]
  }

  lemma {:induction false} RoomsOfIndex(rooms: seq<Room>, markupDefault: real, i: int)
    requires 0 <= i < |rooms|
    ensures RoomsOf(rooms, markupDefault)[i] == RoomDataOf(rooms[i], markupDefault)
  {
    if i < |rooms| - 1 {
      RoomsOfIndex(rooms[..|rooms| - 1], markupDefault, i);
    }
  }

  // ---------------------------------------------------------------------------
  // Reading the quote row

  /** A line whose override is missing or 0 falls back to the quote's default markup. */
  predicate FallsBack(e: Equipment) {
    e.markupOverride.None? || e.markupOverride.value == 0.0
  }

  predicate SystemFallsBack(s: System) {
    exists k :: 0 <= k < |s.equipment| && FallsBack(s.equipment[k])
  }

  predicate RoomFallsBack(r: Room) {
    exists j :: 0 <= j < |r.systems| && SystemFallsBack(r.systems[j])
  }

  /** Some equipment line of the quote reads the default markup column. */
  predicate ReadsDefaultMarkup(q: Quote) {
    exists i :: 0 <= i < |q.rooms| && RoomFallsBack(q.rooms[i])
  }

  /** The tax flag as `if quote['tax_enabled']` reads it: a NULL flag is false. */
  predicate TaxCharged(q: Quote) {
    q.taxEnabled == Some(true)
  }

  /**
   * The breakdown passes a NULL column to `float()`, which raises: the
   * default markup when some line falls back to it, or the tax rate when tax
   * is charged.
   */
  predicate ReadsNull(q: Quote) {
    (q.markupDefault.None? && ReadsDefaultMarkup(q)) || (TaxCharged(q) && q.taxRate.None?)
  }

  /**
   * The default markup and tax rate the breakdown computes with. Where the
   * column is NULL and the breakdown does not raise, the value is never
   * read (`UnreadDefaultMarkup`, `NoTaxWhenDisabled`).
   */
  function QuoteMarkup(q: Quote): real { q.markupDefault.GetOr(0.0) }
  function QuoteTaxRate(q: Quote): real { q.taxRate.GetOr(0.0) }

  function FinancialsOf(q: Quote): Financials {
    var rooms := RoomsOf(q.rooms, QuoteMarkup(q));
    Financials(rooms, TotalsOf(rooms, TaxCharged(q), QuoteTaxRate(q)))
  }

  /** Prices every room of a quote and accumulates the room values. */
  method PriceRooms(q: Quote) returns (rooms: seq<RoomData>, equipmentCost: int, equipmentPrice: int,
                                       laborCost: int, laborPrice: int, servicesPrice: int)
    ensures rooms == RoomsOf(q.rooms, QuoteMarkup(q))
    ensures equipmentCost == Total(rooms, RoomEquipmentCost)
    ensures equipmentPrice == Total(rooms, RoomEquipmentPrice)
    ensures laborCost == Total(rooms, RoomLaborCost)
    ensures laborPrice == Total(rooms, RoomLaborPrice)
    ensures servicesPrice == Total(rooms, RoomServicesPrice)
  {
    rooms := [];
    equipmentCost, equipmentPrice, laborCost, laborPrice, servicesPrice := 0, 0, 0, 0, 0;
    var markup, i := QuoteMarkup(q), 0;
    while i < |q.rooms|
      invariant 0 <= i <= |q.rooms|
      invariant rooms == RoomsOf(q.rooms[..i], markup)
      invariant equipmentCost == Total(rooms, RoomEquipmentCost)
      invariant equipmentPrice == Total(rooms, RoomEquipmentPrice)
      invariant laborCost == Total(rooms, RoomLaborCost)
      invariant laborPrice == Total(rooms, RoomLaborPrice)
      invariant servicesPrice == Total(rooms, RoomServicesPrice)
    {
      var rd := PriceRoom(q.rooms[i], markup);
      assert q.rooms[..i + 1][..i] == q.rooms[..i];
      assert RoomsOf(q.rooms[..i + 1], markup) == rooms + [rd];
      TotalAppend(rooms, rd, RoomEquipmentCost);
      TotalAppend(rooms, rd, RoomEquipmentPrice);
      TotalAppend(rooms, rd, RoomLaborCost);
      TotalAppend(rooms, rd, RoomLaborPrice);
      TotalAppend(rooms, rd, RoomServicesPrice);
      rooms := rooms + [rd];
      equipmentCost := equipmentCost + rd.equipmentCost;
      equipmentPrice := equipmentPrice + rd.equipmentPrice;
      laborCost := laborCost + rd.laborCost;
      laborPrice := laborPrice + rd.laborPrice;
      servicesPrice := servicesPrice + rd.servicesPrice;
      i := i + 1;
    }
    assert q.rooms[..i] == q.rooms;
  }

  /**
   * GET /quotes/{id}/financials over the stored quotes (each with its rooms):
   * NotFound for an unknown id, ServerError when a NULL column is read as a
   * number, otherwise the breakdown. The code raises in the middle of its
   * loops; since it writes nothing, the response is the same as checking first.
   */
  method GetQuoteFinancials(quotes: map<int, Quote>, quoteId: int) returns (r: Result<Financials, ApiError>)
    ensures quoteId !in quotes ==> r == Failure(NotFound)
    ensures quoteId in quotes && ReadsNull(quotes[quoteId]) ==> r == Failure(ServerError)
    ensures quoteId in quotes && !ReadsNull(quotes[quoteId]) ==> r == Success(FinancialsOf(quotes[quoteId]))
  {
    if quoteId !in quotes {
      return Failure(NotFound);
    }
    var q := quotes[quoteId];
    if ReadsNull(q) {
      return Failure(ServerError);
    }
    var rooms, equipmentCost, equipmentPrice, laborCost, laborPrice, servicesPrice := PriceRooms(q);
    var totals := TotalsFrom(equipmentCost, equipmentPrice, laborCost, laborPrice, servicesPrice,
      TaxCharged(q), QuoteTaxRate(q));
    return Success(Financials(rooms, totals));
  }

  // ---------------------------------------------------------------------------
  // Line agreement with the listing endpoints

  /**
   * The breakdown prices an equipment line exactly as GET /equipment/system/{id}
   * does under the same default markup: same unit price, totals, margin and
   * markup percent.
   */
  lemma EquipmentLineMatchesListing(e: Equipment, markupDefault: real)
    ensures var f, l := EquipmentLineOf(e, markupDefault), ListedEquipmentOf(e, markupDefault);
      && f.unitPrice == l.unitPrice && f.totalCost == l.totalCost && f.totalPrice == l.totalPrice
      && f.margin == l.marginDollars && f.markupPercent == l.marginPercent
  {
    ScaledDistributes(LineUnitPrice(e, markupDefault), e.unitCost, e.quantity);
  }

  /**
   * The breakdown and GET /labor/room/{id} agree on a labor line's cost and
   * price, but not always on its margin: the breakdown rounds the unrounded
   * difference, the listing the difference of the rounded amounts.
   */
  lemma LaborMarginDiffersFromListing()
    ensures var l := Labor(1, "Technician", 0.01, 0.02, 0.3);
      && LaborLineOf(l).totalCost == ListedLaborOf(l).totalCost == 0
      && LaborLineOf(l).totalPrice == ListedLaborOf(l).totalPrice == 1
      && LaborLineOf(l).margin == 0
      && ListedLaborOf(l).marginDollars == 1
  {
    var l := Labor(1, "Technician", 0.01, 0.02, 0.3);
    assert LaborCost(l) == 0.003 && LaborPrice(l) == 0.006;
    assert LaborPrice(l) - LaborCost(l) == 0.003;
    Round2OfSum(1, 0, 0);
  }

  // ---------------------------------------------------------------------------
  // System and room identities

  /** A system's margin is exactly its rounded price minus its rounded cost. */
  lemma SystemIdentities(s: System, markupDefault: real)
    ensures var sd := SystemDataOf(s, markupDefault);
      && |sd.equipment| == |s.equipment|
      && sd.margin == sd.equipmentPrice - sd.equipmentCost
  {
    var sd := SystemDataOf(s, markupDefault);
    Round2OfSum(sd.equipmentPrice, sd.equipmentCost, 0);
  }

  /**
   * A room's subtotal is exactly the sum of its three scaled prices, and its
   * margin is exactly the subtotal less the scaled equipment and labor costs.
   */
  lemma RoomIdentities(r: Room, markupDefault: real)
    ensures var rd := RoomDataOf(r, markupDefault);
      && rd.subtotal == rd.equipmentPrice + rd.laborPrice + rd.servicesPrice
      && rd.margin == (rd.equipmentPrice - rd.equipmentCost) + (rd.laborPrice - rd.laborCost) + rd.servicesPrice
      && rd.margin == rd.subtotal - (rd.equipmentCost + rd.laborCost)
  {
    var rd := RoomDataOf(r, markupDefault);
    Round2OfSum(rd.equipmentPrice, rd.laborPrice, rd.servicesPrice);
    assert AsReal(rd.equipmentPrice) - AsReal(rd.equipmentCost) == AsReal(rd.equipmentPrice - rd.equipmentCost);
    assert AsReal(rd.laborPrice) - AsReal(rd.laborCost) == AsReal(rd.laborPrice - rd.laborCost);
    Round2OfSum(rd.equipmentPrice - rd.equipmentCost, rd.laborPrice - rd.laborCost, rd.servicesPrice);
  }

  /** The unrounded services total is the equipment price times the summed percentages. */
  lemma {:induction false} ServicesPriceIsPercentOfEquipment(ss: seq<Service>, equipmentPrice: real)
    ensures ServicesPriceSum(ss, equipmentPrice) == equipmentPrice * (SumOf(ss, Percentage) / 100.0)
  {
    if |ss| > 0 {
      var init, last := ss[..|ss| - 1], ss[|ss| - 1];
      ServicesPriceIsPercentOfEquipment(init, equipmentPrice);
      calc {
        ServicesPriceSum(ss, equipmentPrice);
        equipmentPrice * (SumOf(init, Percentage) / 100.0) + equipmentPrice * (last.percentage / 100.0);
        equipmentPrice * ((SumOf(init, Percentage) + last.percentage) / 100.0);
      }
    }
  }

  /**
   * Room quantity multiplies the equipment totals exactly: a room of
   * quantity n has n times the equipment cost and price of the same room of
   * quantity 1. Its service lines are those of a single room, since services
   * are priced before the multiply.
   */
  lemma RoomEquipmentScalesWithQuantity(r: Room, markupDefault: real)
    ensures var one, rd := RoomDataOf(r.(quantity := 1), markupDefault), RoomDataOf(r, markupDefault);
      && rd.equipmentCost == one.equipmentCost * r.quantity
      && rd.equipmentPrice == one.equipmentPrice * r.quantity
      && rd.services == one.services
  {
    var sums := RoomSumsOf(r, markupDefault);
    assert RoomSumsOf(r.(quantity := 1), markupDefault) == sums;
    Round2OfScaledHundredths(sums.equipmentCost, 1);
    Round2OfScaledHundredths(sums.equipmentPrice, 1);
    Round2OfScaledHundredths(sums.equipmentCost, r.quantity);
    Round2OfScaledHundredths(sums.equipmentPrice, r.quantity);
  }

  /**
   * The services total scales exactly with room quantity when the unscaled
   * services total is a whole number of hundredths.
   */
  lemma RoomServicesScaleForWholeHundredths(r: Room, markupDefault: real, k: int)
    requires RoomSumsOf(r, markupDefault).servicesPrice == AsReal(k)
    ensures RoomDataOf(r, markupDefault).servicesPrice
         == RoomDataOf(r.(quantity := 1), markupDefault).servicesPrice * r.quantity
  {
    assert RoomSumsOf(r.(quantity := 1), markupDefault) == RoomSumsOf(r, markupDefault);
    Round2OfScaledHundredths(k, 1);
    Round2OfScaledHundredths(k, r.quantity);
  }

  /** A room with one 0.04 line and a 10% service. */
  function SmallServiceRoom(quantity: int): Room {
    Room(1, "Closet", quantity,
      [System(1, "Rack", [Equipment(1, "Patch cable", None, 1, 0.04, None, None, false)])],
      [], [Service(1, "Installation", 10.0)])
  }

  /**
   * Otherwise it need not: with a markup default of 0, one such room has a
   * services total of 0.00 while two have 0.01.
   */
  lemma RoomServicesNeedNotScale()
    ensures RoomDataOf(SmallServiceRoom(1), 0.0).servicesPrice == 0
    ensures RoomDataOf(SmallServiceRoom(2), 0.0).servicesPrice == 1
  {
    var r := SmallServiceRoom(1);
    var e := r.systems[0].equipment[0];
    assert LinePrice(e, 0.0) == 0.04;
    assert EquipmentPriceSum(r.systems[0].equipment, 0.0) == 0.04;
    Round2OfHundredths(4);
    assert SystemDataOf(r.systems[0], 0.0).equipmentPrice == 4;
    assert RoomSumsOf(r, 0.0).equipmentPrice == 4;
    assert RoomSumsOf(r, 0.0).servicesPrice == 0.004;
    assert RoomSumsOf(SmallServiceRoom(2), 0.0) == RoomSumsOf(r, 0.0);
    assert Scaled(0.004, 1) == 0.004 && Scaled(0.004, 2) == 0.008;
  }

  // ---------------------------------------------------------------------------
  // Quote totals

  /**
   * The quote totals lose nothing to their re-rounding: each is exactly the
   * total of the corresponding room values.
   */
  lemma TotalsAreRoomTotals(q: Quote)
    ensures var rooms, t := RoomsOf(q.rooms, QuoteMarkup(q)), FinancialsOf(q).totals;
      && t.equipmentCost == Total(rooms, RoomEquipmentCost)
      && t.equipmentPrice == Total(rooms, RoomEquipmentPrice)
      && t.laborCost == Total(rooms, RoomLaborCost)
      && t.laborPrice == Total(rooms, RoomLaborPrice)
      && t.servicesPrice == Total(rooms, RoomServicesPrice)
  {
    var rooms := RoomsOf(q.rooms, QuoteMarkup(q));
    Round2OfHundredths(Total(rooms, RoomEquipmentCost));
    Round2OfHundredths(Total(rooms, RoomEquipmentPrice));
    Round2OfHundredths(Total(rooms, RoomLaborCost));
    Round2OfHundredths(Total(rooms, RoomLaborPrice));
    Round2OfHundredths(Total(rooms, RoomServicesPrice));
  }

  /**
   * The margins are exactly price minus cost, services cost nothing, the
   * subtotal is exactly the sum of the three prices, the total margin is the
   * subtotal less equipment and labor cost, and the grand total is exactly
   * subtotal plus tax.
   */
  lemma TotalsIdentities(ec: int, ep: int, lc: int, lp: int, sp: int, taxEnabled: bool, taxRate: real)
    ensures var t := TotalsFrom(ec, ep, lc, lp, sp, taxEnabled, taxRate);
      && t.equipmentMargin == t.equipmentPrice - t.equipmentCost
      && t.laborMargin == t.laborPrice - t.laborCost
      && t.servicesCost == 0
      && t.subtotal == t.equipmentPrice + t.laborPrice + t.servicesPrice
      && t.totalMargin == t.equipmentMargin + t.laborMargin + t.servicesPrice
      && t.totalMargin == t.subtotal - (t.equipmentCost + t.laborCost)
      && t.grandTotal == t.subtotal + t.tax
  {
    var t := TotalsFrom(ec, ep, lc, lp, sp, taxEnabled, taxRate);
    Round2OfSum(t.equipmentPrice, t.equipmentCost, 0);
    Round2OfSum(t.laborPrice, t.laborCost, 0);
    Round2OfSum(t.equipmentPrice, t.laborPrice, t.servicesPrice);
    Round2OfSum(t.equipmentMargin, t.laborMargin, t.servicesPrice);
    Round2OfSum(t.subtotal, t.tax, 0);
  }

  /**
   * Tax is zero whenever the tax flag is false or NULL, whatever the rate
   * (even a NULL one), and the grand total is then the subtotal.
   */
  lemma NoTaxWhenDisabled(q: Quote)
    requires !TaxCharged(q)
    ensures FinancialsOf(q).totals.tax == 0
    ensures FinancialsOf(q).totals.grandTotal == FinancialsOf(q).totals.subtotal
  {
    var t := FinancialsOf(q).totals;
    Round2OfSum(t.subtotal, 0, 0);
  }

  /** With tax enabled, tax is the rate applied to the total of the rooms' equipment sell prices. */
  lemma TaxOnEquipmentPrice(q: Quote)
    requires TaxCharged(q) && q.taxRate.Some?
    ensures FinancialsOf(q).totals.tax
         == TaxOn(AsReal(Total(RoomsOf(q.rooms, QuoteMarkup(q)), RoomEquipmentPrice)), q.taxRate.value)
  {
    TotalsAreRoomTotals(q);
  }

  /** The margin percent is zero unless equipment plus labor cost is positive. */
  lemma MarginPercentGuarded(ec: int, ep: int, lc: int, lp: int, sp: int, taxEnabled: bool, taxRate: real)
    ensures var t := TotalsFrom(ec, ep, lc, lp, sp, taxEnabled, taxRate);
      && (t.equipmentCost + t.laborCost <= 0 ==> t.marginPercent == 0)
      && (t.equipmentCost + t.laborCost > 0 ==>
            t.marginPercent == Round2(t.totalMargin as real / (t.equipmentCost + t.laborCost) as real * 100.0))
  {
    var t := TotalsFrom(ec, ep, lc, lp, sp, taxEnabled, taxRate);
    assert AsReal(t.equipmentCost) + AsReal(t.laborCost) == AsReal(t.equipmentCost + t.laborCost);
    if t.equipmentCost + t.laborCost > 0 {
      RatioOfHundredths(t.totalMargin, t.equipmentCost + t.laborCost);
    }
  }

  /** One room of quantity 2 holding a 100.00 item and a 10% service, under a 20% default markup and 8% tax. */
  function SampleQuote(): Quote {
    Quote(1, "Lobby refresh", "Acme", Some("draft"), Some(20.0), Some(8.0), Some(true),
      [Room(1, "Lobby", 2,
        [System(1, "Display", [Equipment(1, "Display", None, 1, 100.0, None, None, false)])],
        [], [Service(1, "Installation", 10.0)])])
  }

  /**
   * The sample quote prices at 120.00 a unit and 12.00 of services per room;
   * two rooms give equipment 240.00, services 24.00 and a subtotal of 264.00;
   * 8% tax on the equipment is 19.20, for a grand total of 283.20.
   */
  lemma SampleQuoteTotals()
    ensures var f := FinancialsOf(SampleQuote());
      && f.rooms[0].systems[0].equipment[0].unitPrice == 12000
      && f.rooms[0].services[0].calculatedPrice == 1200
      && f.rooms[0].equipmentPrice == 24000
      && f.rooms[0].servicesPrice == 2400
      && f.rooms[0].subtotal == 26400
      && f.totals.tax == 1920
      && f.totals.grandTotal == 28320
  {
    var q := SampleQuote();
    var r := q.rooms[0];
    var e := r.systems[0].equipment[0];
    assert LineUnitPrice(e, 20.0) == 120.0;
    Round2OfHundredths(12000);
    Round2OfHundredths(10000);
    assert EquipmentPriceSum(r.systems[0].equipment, 20.0) == 120.0;
    assert SumOf(r.systems[0].equipment, LineCost) == 100.0;
    var sd := SystemDataOf(r.systems[0], 20.0);
    assert sd.equipmentPrice == 12000 && sd.equipmentCost == 10000;
    var sums := RoomSumsOf(r, 20.0);
    assert sums.equipmentPrice == 12000;
    assert sums.servicesPrice == 12.0;
    Round2OfHundredths(1200);
    Round2OfScaledHundredths(12000, 2);
    Round2OfScaledHundredths(10000, 2);
    Round2OfScaledHundredths(1200, 2);
    Round2OfHundredths(0);
    assert Scaled(0.0, 2) == 0.0;
    var rd := RoomDataOf(r, 20.0);
    assert rd.equipmentPrice == 24000 && rd.servicesPrice == 2400 && rd.laborPrice == 0;
    RoomIdentities(r, 20.0);
    var rooms := RoomsOf(q.rooms, 20.0);
    assert rooms == [rd];
    TotalsAreRoomTotals(q);
    TotalsIdentities(Total(rooms, RoomEquipmentCost), Total(rooms, RoomEquipmentPrice), Total(rooms, RoomLaborCost),
      Total(rooms, RoomLaborPrice), Total(rooms, RoomServicesPrice), true, 8.0);
    Round2OfHundredths(1920);
    assert AsReal(24000) * (8.0 / 100.0) == AsReal(1920);
  }

  // ---------------------------------------------------------------------------
  // Tax depends on equipment sell prices alone

  /** The quote with every labor and service line removed and every tax-exempt flag cleared. */
  function EquipmentOnly(q: Quote): Quote {
    q.(rooms := seq(|q.rooms|, i requires 0 <= i < |q.rooms| => EquipmentOnlyRoom(q.rooms[i])))
  }

  function EquipmentOnlyRoom(r: Room): Room {
    r.(systems := seq(|r.systems|, i requires 0 <= i < |r.systems| => ExemptionsCleared(r.systems[i])),
       labor := [], services := [])
  }

  function ExemptionsCleared(s: System): System {
    s.(equipment := seq(|s.equipment|, i requires 0 <= i < |s.equipment| => s.equipment[i].(taxExempt := false)))
  }

  /** Two equipment sums agree when their lines' sell prices agree position by position. */
  lemma {:induction false} EquipmentPriceSumPointwise(xs: seq<Equipment>, ys: seq<Equipment>, markupDefault: real)
    requires |xs| == |ys|
    requires forall i :: 0 <= i < |xs| ==> LinePrice(xs[i], markupDefault) == LinePrice(ys[i], markupDefault)
    ensures EquipmentPriceSum(xs, markupDefault) == EquipmentPriceSum(ys, markupDefault)
  {
    if |xs| > 0 {
      var n := |xs| - 1;
      assert forall i :: 0 <= i < n ==> xs[..n][i] == xs[i] && ys[..n][i] == ys[i];
      EquipmentPriceSumPointwise(xs[..n], ys[..n], markupDefault);
    }
  }

  lemma RoomEquipmentPriceIgnoresOtherLines(r: Room, markupDefault: real)
    ensures RoomDataOf(EquipmentOnlyRoom(r), markupDefault).equipmentPrice == RoomDataOf(r, markupDefault).equipmentPrice
  {
    var stripped := EquipmentOnlyRoom(r);
    var xs, ys := RoomSumsOf(stripped, markupDefault).systems, RoomSumsOf(r, markupDefault).systems;
    forall i | 0 <= i < |r.systems|
      ensures SystemPrice(xs[i]) == SystemPrice(ys[i])
    {
      var s := r.systems[i];
      SystemsOfIndex(stripped.systems, markupDefault, i);
      SystemsOfIndex(r.systems, markupDefault, i);
      EquipmentPriceSumPointwise(ExemptionsCleared(s).equipment, s.equipment, markupDefault);
    }
    TotalPointwise(xs, SystemPrice, ys, SystemPrice);
  }

  /**
   * Tax is charged on equipment sell prices alone: removing every labor and
   * service line and clearing every tax-exempt flag leaves it unchanged.
   */
  lemma TaxIgnoresLaborServicesAndExemptions(q: Quote)
    ensures FinancialsOf(EquipmentOnly(q)).totals.tax == FinancialsOf(q).totals.tax
  {
    var xs, ys := RoomsOf(EquipmentOnly(q).rooms, QuoteMarkup(q)), RoomsOf(q.rooms, QuoteMarkup(q));
    forall i | 0 <= i < |q.rooms|
      ensures RoomEquipmentPrice(xs[i]) == RoomEquipmentPrice(ys[i])
    {
      RoomsOfIndex(EquipmentOnly(q).rooms, QuoteMarkup(q), i);
      RoomsOfIndex(q.rooms, QuoteMarkup(q), i);
      RoomEquipmentPriceIgnoresOtherLines(q.rooms[i], QuoteMarkup(q));
    }
    TotalPointwise(xs, RoomEquipmentPrice, ys, RoomEquipmentPrice);
  }

  // ---------------------------------------------------------------------------
  // A NULL default markup that no line reads

  /** Lines that all carry a truthy override price the same under any default markup. */
  lemma {:induction false} EquipmentIgnoresDefault(es: seq<Equipment>, m1: real, m2: real)
    requires forall k :: 0 <= k < |es| ==> !FallsBack(es[k])
    ensures EquipmentLinesOf(es, m1) == EquipmentLinesOf(es, m2)
    ensures EquipmentPriceSum(es, m1) == EquipmentPriceSum(es, m2)
  {
    if |es| > 0 {
      EquipmentIgnoresDefault(es[..|es| - 1], m1, m2);
    }
  }

  lemma {:induction false} SystemsIgnoreDefault(ss: seq<System>, m1: real, m2: real)
    requires forall j :: 0 <= j < |ss| ==> !SystemFallsBack(ss[j])
    ensures SystemsOf(ss, m1) == SystemsOf(ss, m2)
  {
    if |ss| > 0 {
      SystemsIgnoreDefault(ss[..|ss| - 1], m1, m2);
      EquipmentIgnoresDefault(ss[|ss| - 1].equipment, m1, m2);
    }
  }

  lemma RoomSumsIgnoreDefault(r: Room, m1: real, m2: real)
    requires !RoomFallsBack(r)
    ensures RoomSumsOf(r, m1) == RoomSumsOf(r, m2)
  {
    SystemsIgnoreDefault(r.systems, m1, m2);
  }

  lemma RoomIgnoresDefault(r: Room, m1: real, m2: real)
    requires !RoomFallsBack(r)
    ensures RoomDataOf(r, m1) == RoomDataOf(r, m2)
  {
    RoomSumsIgnoreDefault(r, m1, m2);
  }

  lemma {:induction false} RoomsIgnoreDefault(rooms: seq<Room>, m1: real, m2: real)
    requires forall i :: 0 <= i < |rooms| ==> !RoomFallsBack(rooms[i])
    ensures RoomsOf(rooms, m1) == RoomsOf(rooms, m2)
  {
    if |rooms| > 0 {
      RoomsIgnoreDefault(rooms[..|rooms| - 1], m1, m2);
      RoomIgnoresDefault(rooms[|rooms| - 1], m1, m2);
    }
  }

  /**
   * When every equipment line carries a truthy override, the default markup
   * column is never read: the rooms of the breakdown are the same under any
   * default, so a NULL there changes nothing.
   */
  lemma UnreadDefaultMarkup(q: Quote, m: real)
    requires !ReadsDefaultMarkup(q)
    ensures RoomsOf(q.rooms, m) == RoomsOf(q.rooms, QuoteMarkup(q))
    ensures FinancialsOf(q.(markupDefault := Some(m))) == FinancialsOf(q)
  {
    RoomsIgnoreDefault(q.rooms, m, QuoteMarkup(q));
  }
}
