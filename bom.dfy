/**
 * The bill of materials of a quote (GET /quotes/{id}/bom in backend/server.py).
 *
 * Every equipment line of every system of every room is one occurrence. The
 * occurrences are grouped by a key made of the item name and the vendor (or
 * "N/A"); a group keeps the description, vendor and unit cost of its first
 * occurrence, sums quantity times room quantity, and records one location per
 * occurrence. Groups are listed in the order their keys first appear, as a
 * Python dict keeps them.
 */
module BillOfMaterials {
  import opened Wrappers
  import opened Money
  import opened QuoteData

  datatype Location = Location(room: string, system: string, quantity: int, roomQuantity: int)

  datatype Group = Group(
    itemName: string,
    description: Option<string>,
    vendor: Option<string>,
    quantity: int,
    unitCost: real,
    locations: seq<Location>)

  datatype Bom = Bom(
    quoteId: int,
    quoteName: string,
    clientName: string,
    status: Option<string>,
    items: seq<Group>,
    totalItems: int,
    totalQuantity: int,
    totalCost: int)

  /** One equipment line in the place the walk meets it. */
  datatype Occurrence = Occurrence(roomName: string, roomQuantity: int, systemName: string, equipment: Equipment)

  /** The grouping dictionary: its entries, and its keys in insertion order. */
  datatype Summary = Summary(groups: map<string, Group>, order: seq<string>)

  // ---------------------------------------------------------------------------
  // Keys

  /** The vendor part of the key: "N/A" for a missing or empty vendor, as `or` treats both as false. */
  function VendorPart(vendor: Option<string>): (v: string)
    ensures vendor.None? ==> v == "N/A"
    ensures vendor.Some? && vendor.value != "" ==> v == vendor.value
    ensures vendor == Some("") ==> v == "N/A"
  {
    if vendor.Some? && vendor.value != "" then vendor.value else "N/A"
  }

  function BomKey(e: Equipment): (k: string)
    ensures k == e.itemName + "|" + VendorPart(e.vendor)
  {
    e.itemName + "|" + VendorPart(e.vendor)
  }

  /** Lines with the same item name and vendor share a key. */
  lemma SameItemSameKey(e1: Equipment, e2: Equipment)
    requires e1.itemName == e2.itemName && e1.vendor == e2.vendor
    ensures BomKey(e1) == BomKey(e2)
  {
  }

  /**
   * The key does not always tell lines apart: a missing vendor and the vendor
   * "N/A" share a key, and so do two lines whose item name and vendor split
   * the same text at different bars.
   */
  lemma KeysCanCollide(e: Equipment)
    ensures BomKey(e.(vendor := None)) == BomKey(e.(vendor := Some("N/A")))
    ensures BomKey(e.(itemName := "Cable|Belden", vendor := Some("Cat6")))
         == BomKey(e.(itemName := "Cable", vendor := Some("Belden|Cat6")))
  {
    assert "Cable|Belden" + "|" + "Cat6" == "Cable" + "|" + "Belden|Cat6";
  }

  // ---------------------------------------------------------------------------
  // The walk, in the order the rooms, systems and lines are fetched

  function LineOccurrences(roomName: string, roomQuantity: int, s: System, es: seq<Equipment>): (occs: seq<Occurrence>)
    ensures |occs| == |es|
  {
    if |es| == 0 then []
    else LineOccurrences(roomName, roomQuantity, s, es[..|es| - 1])
         + [Occurrence(roomName, roomQuantity, s.name, es[|es| - 1])]
  }

  function SystemOccurrences(r: Room, ss: seq<System>): seq<Occurrence> {
    if |ss| == 0 then []
    else SystemOccurrences(r, ss[..|ss| - 1])
         + LineOccurrences(r.name, r.quantity, ss[|ss| - 1], ss[|ss| - 1].equipment)
  }

  function Occurrences(rooms: seq<Room>): seq<Occurrence> {
    if |rooms| == 0 then []
    else Occurrences(rooms[..|rooms| - 1]) + SystemOccurrences(rooms[|rooms| - 1], rooms[|rooms| - 1].systems)
  }

  /** The units an occurrence contributes: line quantity times room quantity. */
  function OccurrenceQuantity(o: Occurrence): int { o.equipment.quantity * o.roomQuantity }

  function LocationOf(o: Occurrence): Location {
    Location(o.roomName, o.systemName, o.equipment.quantity, o.roomQuantity)
  }

  function Key(o: Occurrence): string { BomKey(o.equipment) }

  // ---------------------------------------------------------------------------
  // Grouping

  /** One step of the loop body: add to the key's group, or open the group with this occurrence. */
  function Add(st: Summary, o: Occurrence): Summary {
    var key := Key(o);
    if key in st.groups then
      var g := st.groups[key];
      Summary(st.groups[key := g.(quantity := g.quantity + OccurrenceQuantity(o),
                                  locations := g.locations + [LocationOf(o)])], st.order)
    else
      var e := o.equipment;
      Summary(st.groups[key := Group(e.itemName, e.description, e.vendor, OccurrenceQuantity(o), e.unitCost,
                                     [LocationOf(o)])], st.order + [key])
  }

  /** The grouping dictionary after adding the given occurrences in order to `st`. */
  function AddAll(st: Summary, occs: seq<Occurrence>): Summary {
    if |occs| == 0 then st else Add(AddAll(st, occs[..|occs| - 1]), occs[|occs| - 1])
  }

  const Empty := Summary(map[], [])

  /** The grouping dictionary after the given occurrences, starting empty. */
  function Summarize(occs: seq<Occurrence>): Summary {
    AddAll(Empty, occs)
  }

  lemma AddAllAppend(st: Summary, occs: seq<Occurrence>, o: Occurrence)
    ensures AddAll(st, occs + [o]) == Add(AddAll(st, occs), o)
  {
    assert (occs + [o])[..|occs|] == occs;
  }

  /** Adding two runs of occurrences one after the other is adding their concatenation. */
  lemma {:induction false} AddAllConcat(st: Summary, xs: seq<Occurrence>, ys: seq<Occurrence>)
    ensures AddAll(st, xs + ys) == AddAll(AddAll(st, xs), ys)
  {
    if |ys| == 0 {
      assert xs + ys == xs;
    } else {
      var n := |ys| - 1;
      assert xs + ys == (xs + ys[..n]) + [ys[n]];
      assert ys == ys[..n] + [ys[n]];
      AddAllConcat(st, xs, ys[..n]);
      AddAllAppend(st, xs + ys[..n], ys[n]);
    }
  }

  /** The groups in the order their keys were inserted. */
  function ItemsOf(order: seq<string>, groups: map<string, Group>): seq<Group> {
    if |order| == 0 then []
    else ItemsOf(order[..|order| - 1], groups)
         + (if order[|order| - 1] in groups then [groups[order[|order| - 1]]] else [])
  }

  function GroupQuantity(g: Group): int { g.quantity }
  function LocationCount(g: Group): int { |g.locations| }
  function GroupCost(g: Group): real { Scaled(g.unitCost, g.quantity) }

  /** The document the endpoint returns for the requested id and the quote found under it. */
  function BomOf(quoteId: int, q: Quote): Bom {
    var st := Summarize(Occurrences(q.rooms));
    var items := ItemsOf(st.order, st.groups);
    Bom(quoteId, q.name, q.clientName, q.status, items, |items|, Total(items, GroupQuantity),
      Round2(SumOf(items, GroupCost)))
  }

  /** One more line of a system adds one more occurrence. */
  lemma LineStep(st: Summary, room: Room, system: System, k: int)
    requires 0 <= k < |system.equipment|
    ensures AddAll(st, LineOccurrences(room.name, room.quantity, system, system.equipment[..k + 1]))
         == Add(AddAll(st, LineOccurrences(room.name, room.quantity, system, system.equipment[..k])),
                Occurrence(room.name, room.quantity, system.name, system.equipment[k]))
  {
    var o := Occurrence(room.name, room.quantity, system.name, system.equipment[k]);
    var before := LineOccurrences(room.name, room.quantity, system, system.equipment[..k]);
    assert system.equipment[..k + 1][..k] == system.equipment[..k];
    assert LineOccurrences(room.name, room.quantity, system, system.equipment[..k + 1]) == before + [o];
    AddAllAppend(st, before, o);
  }

  /** The innermost loop: adds the equipment lines of one system of a room. */
  method AddSystemLines(st: Summary, room: Room, system: System) returns (st': Summary)
    ensures st' == AddAll(st, LineOccurrences(room.name, room.quantity, system, system.equipment))
  {
    st' := st;
    var k := 0;
    while k < |system.equipment|
      invariant 0 <= k <= |system.equipment|
      invariant st' == AddAll(st, LineOccurrences(room.name, room.quantity, system, system.equipment[..k]))
    {
      LineStep(st, room, system, k);
      st' := Add(st', Occurrence(room.name, room.quantity, system.name, system.equipment[k]));
      k := k + 1;
    }
    assert system.equipment[..k] == system.equipment;
  }

  /** The middle loop: adds the lines of every system of a room. */
  method AddRoom(st: Summary, room: Room) returns (st': Summary)
    ensures st' == AddAll(st, SystemOccurrences(room, room.systems))
  {
    st' := st;
    var j := 0;
    while j < |room.systems|
      invariant 0 <= j <= |room.systems|
      invariant st' == AddAll(st, SystemOccurrences(room, room.systems[..j]))
    {
      var system := room.systems[j];
      assert room.systems[..j + 1][..j] == room.systems[..j];
      AddAllConcat(st, SystemOccurrences(room, room.systems[..j]),
                   LineOccurrences(room.name, room.quantity, system, system.equipment));
      st' := AddSystemLines(st', room, system);
      j := j + 1;
    }
    assert room.systems[..j] == room.systems;
  }

  /**
   * GET /quotes/{id}/bom over the stored quotes: NotFound for an unknown id;
   * otherwise the loop over the rooms builds the grouping dictionary, which is
   * then listed and totalled.
   */
  method GenerateBom(quotes: map<int, Quote>, quoteId: int) returns (r: Result<Bom, ApiError>)
    ensures quoteId !in quotes ==> r == Failure(NotFound)
    ensures quoteId in quotes ==> r == Success(BomOf(quoteId, quotes[quoteId]))
  {
    if quoteId !in quotes {
      return Failure(NotFound);
    }
    var q := quotes[quoteId];
    var summary := Empty;
    var i := 0;
    while i < |q.rooms|
      invariant 0 <= i <= |q.rooms|
      invariant summary == Summarize(Occurrences(q.rooms[..i]))
    {
      var room := q.rooms[i];
      assert q.rooms[..i + 1][..i] == q.rooms[..i];
      AddAllConcat(Empty, Occurrences(q.rooms[..i]), SystemOccurrences(room, room.systems));
      summary := AddRoom(summary, room);
      i := i + 1;
    }
    assert q.rooms[..i] == q.rooms;
    var items := ItemsOf(summary.order, summary.groups);
    return Success(Bom(quoteId, q.name, q.clientName, q.status, items, |items|, Total(items, GroupQuantity),
      Round2(SumOf(items, GroupCost))));
  }

  // ---------------------------------------------------------------------------
  // What a group holds

  /** The first occurrence with a given key, if any. */
  function FirstWith(occs: seq<Occurrence>, key: string): Option<Occurrence> {
    if |occs| == 0 then None
    else
      var first := FirstWith(occs[..|occs| - 1], key);
      if first.Some? then first else if Key(occs[|occs| - 1]) == key then Some(occs[|occs| - 1]) else None
  }

  /** Units over every occurrence with a given key. */
  function KeyQuantity(occs: seq<Occurrence>, key: string): int {
    if |occs| == 0 then 0
    else KeyQuantity(occs[..|occs| - 1], key) + (if Key(occs[|occs| - 1]) == key then OccurrenceQuantity(occs[|occs| - 1]) else 0)
  }

  /** The locations of the occurrences with a given key, in walk order. */
  function KeyLocations(occs: seq<Occurrence>, key: string): seq<Location> {
    if |occs| == 0 then []
    else KeyLocations(occs[..|occs| - 1], key) + (if Key(occs[|occs| - 1]) == key then [LocationOf(occs[|occs| - 1])] else [])
  }

  /**
   * A group's contents described occurrence by occurrence: item name,
   * description, vendor and unit cost of the first occurrence with the key,
   * the units of all of them, and one location for each.
   */
  lemma {:induction false} GroupContents(occs: seq<Occurrence>, key: string)
    ensures key in Summarize(occs).groups <==> FirstWith(occs, key).Some?
    ensures key in Summarize(occs).groups ==>
      var first, g := FirstWith(occs, key).value.equipment, Summarize(occs).groups[key];
      && g.itemName == first.itemName && g.description == first.description
      && g.vendor == first.vendor && g.unitCost == first.unitCost
      && g.quantity == KeyQuantity(occs, key)
      && g.locations == KeyLocations(occs, key)
    ensures key !in Summarize(occs).groups ==> KeyQuantity(occs, key) == 0 && KeyLocations(occs, key) == []
  {
    if |occs| > 0 {
      var init, o := occs[..|occs| - 1], occs[|occs| - 1];
      GroupContents(init, key);
      var st := Summarize(init);
      assert Summarize(occs) == Add(st, o);
      if Key(o) == key && key in st.groups {
        var g := st.groups[key];
        assert FirstWith(occs, key) == FirstWith(init, key);
        assert KeyQuantity(occs, key) == KeyQuantity(init, key) + OccurrenceQuantity(o);
        assert KeyLocations(occs, key) == KeyLocations(init, key) + [LocationOf(o)];
        assert Summarize(occs).groups[key]
            == g.(quantity := g.quantity + OccurrenceQuantity(o), locations := g.locations + [LocationOf(o)]);
      }
    }
  }

  /** The keys listed are exactly the keys of the dictionary, each once. */
  ghost predicate OrderMatches(st: Summary) {
    && (forall k :: k in st.groups <==> k in st.order)
    && (forall i, j :: 0 <= i < j < |st.order| ==> st.order[i] != st.order[j])
  }

  lemma {:induction false} SummaryOrder(occs: seq<Occurrence>)
    ensures OrderMatches(Summarize(occs))
  {
    if |occs| > 0 {
      SummaryOrder(occs[..|occs| - 1]);
    }
  }

  // ---------------------------------------------------------------------------
  // Totals

  /** Changing the group of a key that is not listed leaves the listed groups alone. */
  lemma {:induction false} ItemsIgnoreUnlisted(order: seq<string>, groups: map<string, Group>, key: string, g: Group)
    requires key !in order
    ensures ItemsOf(order, groups[key := g]) == ItemsOf(order, groups)
  {
    if |order| > 0 {
      ItemsIgnoreUnlisted(order[..|order| - 1], groups, key, g);
    }
  }

  /** Replacing the group of a key listed once changes a total by the difference of the two groups. */
  lemma {:induction false} TotalOfUpdatedGroup(order: seq<string>, groups: map<string, Group>, key: string, g: Group,
                                               f: Group -> int)
    requires key in groups && key in order
    requires forall k :: k in order ==> k in groups
    requires forall i, j :: 0 <= i < j < |order| ==> order[i] != order[j]
    ensures Total(ItemsOf(order, groups[key := g]), f) == Total(ItemsOf(order, groups), f) - f(groups[key]) + f(g)
  {
    var n := |order| - 1;
    var init := order[..n];
    assert forall i, j :: 0 <= i < j < |init| ==> init[i] != init[j];
    assert forall k :: k in init ==> k in order;
    var last := [groups[order[n]]];
    var last' := [groups[key := g][order[n]]];
    TotalAppendSeq(ItemsOf(init, groups), last, f);
    TotalAppendSeq(ItemsOf(init, groups[key := g]), last', f);
    if order[n] == key {
      assert key !in init;
      ItemsIgnoreUnlisted(init, groups, key, g);
    } else {
      TotalOfUpdatedGroup(init, groups, key, g, f);
    }
  }

  lemma TotalAppendSeq(xs: seq<Group>, ys: seq<Group>, f: Group -> int)
    requires |ys| <= 1
    ensures Total(xs + ys, f) == Total(xs, f) + (if |ys| == 1 then f(ys[0]) else 0)
  {
    if |ys| == 1 {
      TotalAppend(xs, ys[0], f);
    } else {
      assert xs + ys == xs;
    }
  }

  /** Adding to an existing group changes a listed total by that group's change. */
  lemma AddToExistingGroup(st: Summary, o: Occurrence, f: Group -> int)
    requires OrderMatches(st) && Key(o) in st.groups
    ensures Total(ItemsOf(Add(st, o).order, Add(st, o).groups), f)
         == Total(ItemsOf(st.order, st.groups), f) - f(st.groups[Key(o)]) + f(Add(st, o).groups[Key(o)])
  {
    var st' := Add(st, o);
    assert st'.order == st.order;
    TotalOfUpdatedGroup(st.order, st.groups, Key(o), st'.groups[Key(o)], f);
  }

  /** Opening a new group adds that group to a listed total. */
  lemma AddNewGroup(st: Summary, o: Occurrence, f: Group -> int)
    requires OrderMatches(st) && Key(o) !in st.groups
    ensures Total(ItemsOf(Add(st, o).order, Add(st, o).groups), f)
         == Total(ItemsOf(st.order, st.groups), f) + f(Add(st, o).groups[Key(o)])
  {
    var key := Key(o);
    var st' := Add(st, o);
    assert key !in st.order;
    ItemsIgnoreUnlisted(st.order, st.groups, key, st'.groups[key]);
    assert st'.order[..|st.order|] == st.order;
    TotalAppend(ItemsOf(st.order, st.groups), st'.groups[key], f);
  }

  /** Each step adds the occurrence's units to the listed total and one location to the listed locations. */
  lemma AddKeepsTotals(st: Summary, o: Occurrence)
    requires OrderMatches(st)
    ensures Total(ItemsOf(Add(st, o).order, Add(st, o).groups), GroupQuantity)
         == Total(ItemsOf(st.order, st.groups), GroupQuantity) + OccurrenceQuantity(o)
    ensures Total(ItemsOf(Add(st, o).order, Add(st, o).groups), LocationCount)
         == Total(ItemsOf(st.order, st.groups), LocationCount) + 1
  {
    if Key(o) in st.groups {
      AddToExistingGroup(st, o, GroupQuantity);
      AddToExistingGroup(st, o, LocationCount);
    } else {
      AddNewGroup(st, o, GroupQuantity);
      AddNewGroup(st, o, LocationCount);
    }
  }

  /**
   * Grouping loses and duplicates nothing: the listed quantities add up to the
   * units of all occurrences, and there is one location per occurrence.
   */
  lemma {:induction false} GroupingConservesTotals(occs: seq<Occurrence>)
    ensures var st := Summarize(occs);
      && Total(ItemsOf(st.order, st.groups), GroupQuantity) == Total(occs, OccurrenceQuantity)
      && Total(ItemsOf(st.order, st.groups), LocationCount) == |occs|
  {
    if |occs| > 0 {
      var init := occs[..|occs| - 1];
      GroupingConservesTotals(init);
      SummaryOrder(init);
      AddKeepsTotals(Summarize(init), occs[|occs| - 1]);
    }
  }

  /** Every listed key yields exactly one item. */
  lemma {:induction false} ItemsCount(order: seq<string>, groups: map<string, Group>)
    requires forall k :: k in order ==> k in groups
    ensures |ItemsOf(order, groups)| == |order|
  {
    if |order| > 0 {
      ItemsCount(order[..|order| - 1], groups);
    }
  }

  /**
   * The document's totals: one item per distinct key, and a total quantity
   * equal to the units of every equipment line in every room.
   */
  lemma BomTotals(quoteId: int, q: Quote)
    ensures var b, st := BomOf(quoteId, q), Summarize(Occurrences(q.rooms));
      && b.totalItems == |st.order| == |st.groups.Keys|
      && b.totalQuantity == Total(Occurrences(q.rooms), OccurrenceQuantity)
      && Total(b.items, LocationCount) == |Occurrences(q.rooms)|
  {
    var st := Summarize(Occurrences(q.rooms));
    SummaryOrder(Occurrences(q.rooms));
    ItemsCount(st.order, st.groups);
    GroupingConservesTotals(Occurrences(q.rooms));
    DistinctCard(st.order, st.groups.Keys);
  }

  /** A sequence without repeats has as many elements as the set of them. */
  lemma {:induction false} DistinctCard(xs: seq<string>, s: set<string>)
    requires forall i, j :: 0 <= i < j < |xs| ==> xs[i] != xs[j]
    requires forall k :: k in s <==> k in xs
    ensures |s| == |xs|
  {
    if |xs| > 0 {
      var n := |xs| - 1;
      assert forall i, j :: 0 <= i < j < n ==> xs[..n][i] != xs[..n][j];
      assert xs[n] !in xs[..n];
      DistinctCard(xs[..n], s - {xs[n]});
    }
  }

  /**
   * The unit cost of a group is that of its first line even when later lines
   * of the same item and vendor cost more: two 1-unit lines at 10.00 and
   * 12.00 form one group of 2 units costed at 20.00.
   */
  lemma FirstUnitCostWins()
    ensures var e := Equipment(1, "Camera", None, 1, 10.0, None, Some("Axis"), false);
      var q := Quote(1, "Site", "Acme", Some("draft"), Some(20.0), Some(0.0), Some(false),
        [Room(1, "Hall", 1, [System(1, "CCTV", [e, e.(id := 2, unitCost := 12.0)])], [], [])]);
      && |BomOf(1, q).items| == 1
      && BomOf(1, q).items[0].quantity == 2
      && BomOf(1, q).items[0].unitCost == 10.0
      && BomOf(1, q).totalCost == 2000
  {
    var e := Equipment(1, "Camera", None, 1, 10.0, None, Some("Axis"), false);
    var e2 := e.(id := 2, unitCost := 12.0);
    var s := System(1, "CCTV", [e, e2]);
    var r := Room(1, "Hall", 1, [s], [], []);
    var q := Quote(1, "Site", "Acme", Some("draft"), Some(20.0), Some(0.0), Some(false), [r]);
    var o1, o2 := Occurrence("Hall", 1, "CCTV", e), Occurrence("Hall", 1, "CCTV", e2);
    assert [e, e2][..1] == [e] && [e][..0] == [];
    assert LineOccurrences("Hall", 1, s, [e]) == [o1];
    assert LineOccurrences("Hall", 1, s, [e, e2]) == [o1, o2];
    assert [s][..0] == [];
    assert SystemOccurrences(r, [s]) == [o1, o2];
    assert [r][..0] == [];
    assert Occurrences([r]) == [o1, o2];
    assert [o1, o2][..1] == [o1] && [o1][..0] == [];
    var key := BomKey(e);
    assert Key(o2) == key;
    var st1 := Add(Empty, o1);
    assert st1.order == [key];
    var st := Add(st1, o2);
    assert AddAll(Empty, [o1]) == st1;
    assert AddAll(Empty, [o1, o2]) == st;
    var g := st.groups[key];
    assert st.order == [key] && g.quantity == 2 && g.unitCost == 10.0;
    var items := ItemsOf(st.order, st.groups);
    assert key in st.groups;
    assert [key][..0] == [];
    assert ItemsOf([], st.groups) == [];
    assert items == [g];
    assert [g][..0] == [];
    assert SumOf(items, GroupCost) == 20.0;
    Round2OfHundredths(2000);
  }
}
