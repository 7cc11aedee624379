/**
 * The rows the financial engine and the bill-of-materials compiler read:
 * a quote and, beneath it, its rooms, each room's systems (each holding
 * equipment lines), and each room's labor and service lines. Money columns
 * are exact reals; quantities are the database's integers.
 */
module QuoteData {
  import opened Wrappers

  datatype Equipment = Equipment(
    id: int,
    itemName: string,
    description: Option<string>,
    quantity: int,
    unitCost: real,
    markupOverride: Option<real>,  // NULL when the line has no override
    vendor: Option<string>,
    taxExempt: bool)

  /** A grouping node under a room; it carries no pricing attributes. */
  datatype System = System(id: int, name: string, equipment: seq<Equipment>)

  datatype Labor = Labor(id: int, roleName: string, costRate: real, sellRate: real, hours: real)

  /** A service priced as a percentage of its room's equipment sell price. */
  datatype Service = Service(id: int, serviceName: string, percentage: real)

  datatype Room = Room(
    id: int,
    name: string,
    quantity: int,
    systems: seq<System>,
    labor: seq<Labor>,
    services: seq<Service>)

  /**
   * The quote row, as the read endpoints fetch it, together with the rooms
   * that belong to it. Status, default markup, tax rate and tax flag are
   * nullable columns (each with a default); None is a NULL.
   */
  datatype Quote = Quote(
    id: int,
    name: string,
    clientName: string,
    status: Option<string>,
    markupDefault: Option<real>,
    taxRate: Option<real>,
    taxEnabled: Option<bool>,
    rooms: seq<Room>)

  /**
   * The errors the endpoints raise: 404, 400, and an unhandled exception
   * (a 500) where the code indexes a row it did not find or passes a NULL
   * column to `float()`.
   */
  datatype ApiError = NotFound | BadRequest | ServerError
}
