/** The warehouse simulator and its tool as the program runs them. */
module WarehouseSim {
  import opened Domain
  import opened Warehouse
  import Ledger

  datatype Verb = StoreIt | ShipIt | CountIt | InspectIt
  datatype Call = Call(verb: Verb, shelf: Option<string>, item: Option<string>, qty: Option<nat>, answer: Option<int>)

  /** A response is correct if it repeats the order and names a shelf that fits, or states the true count. */
  predicate Correct(inv: Inventory, shelves: seq<string>, capacity: nat, o: Order, c: Call) {
    match o
    case Store(item, qty) =>
      c.verb.StoreIt? && c.item == Some(item) && c.qty == Some(qty) && c.shelf.Some?
          && Fits(inv, capacity, o, c.shelf.value)
    case Ship(item, qty) =>
      c.verb.ShipIt? && c.item == Some(item) && c.qty == Some(qty) && c.shelf.Some?
          && Fits(inv, capacity, o, c.shelf.value)
    case Count(item) => c.verb.CountIt? && c.answer == Some(TotalOn(inv, shelves, item))
  }

  /** Only a correct store or ship changes the world. */
  function World(inv: Inventory, shelves: seq<string>, capacity: nat, o: Order, c: Call): Inventory {
    if Correct(inv, shelves, capacity, o, c) && !o.Count? then Fulfil(inv, capacity, o, c.shelf.value) else inv
  }

  // ---- what the tool reports ----

  function HoldsJson(m: Holds): Dict {
    map x | x in m :: Num(m[x])
  }

  function ShelfFact(m: Holds, capacity: nat): Dict {
    map["holds" := Obj(HoldsJson(m)), "free" := Num(capacity - Used(m))]
  }

  function TotalFact(item: string, total: nat): Dict {
    map["item" := Str(item), "total" := Num(total)]
  }

  function TotalKey(item: string): string {
    "total_" + item
  }

  /** The shelf that was named, as it is now, and after a success the total of the item. */
  function Facts(inv: Inventory, shelves: seq<string>, capacity: nat, c: Call, ok: bool): seq<Ledger.Report> {
    (if c.shelf.Some? && c.shelf.value in inv && !c.verb.CountIt?
     then [Ledger.Report(c.shelf.value, ShelfFact(inv[c.shelf.value], capacity))] else [])
    + (if ok && c.item.Some? && c.item.value != "" && (c.verb.StoreIt? || c.verb.ShipIt?)
       then [Ledger.Report(TotalKey(c.item.value), TotalFact(c.item.value, TotalOn(inv, shelves, c.item.value)))]
           else [])
  }

  class WarehouseEnv {
    const shelves: seq<string>
    const capacity: nat
    var inventory: Inventory
    var orders: seq<Order>
    var cursor: nat
    var inspections: nat
    var log: seq<bool>

    ghost predicate Valid()
      reads this
    {
      && Sound(inventory, shelves, capacity)
      && cursor == |log| <= |orders| && forall o <- orders :: Sensible(o)
    }

    /** Stocks the shelves and draws the orders, both from the given random choices. */
    constructor (n: nat, capacity: nat, stock: seq<StockDraw>, draws: seq<Draw>)
      requires forall d <- stock :: LegalStock(ShelfNames(n), d)
      requires var inv := StockedAll(Empty(ShelfNames(n)), capacity, stock);
        LegalAll(TotalsOf(inv, ShelfNames(n)), n * capacity, draws)
      ensures Valid() && cursor == 0 && log == [] && shelves == ShelfNames(n) && this.capacity == capacity
      ensures inventory == StockedAll(Empty(shelves), capacity, stock)
      ensures orders == Orders(TotalsOf(inventory, shelves), n * capacity, draws)
    {
      shelves := ShelfNames(n);
      this.capacity := capacity;
      inventory := Empty(ShelfNames(n));
      orders, cursor, inspections, log := [], 0, 0, [];
      new;
      StockedForOrders(n, capacity, stock, draws);
      hide Warehouse.Orders, LegalAll, StockedAll, Sound, TotalsOf, ITEMS, LegalStock, Empty, Sensible, ShelfNames;
      StockShelves(stock);
      Draw(draws);
    }

    method StockShelves(stock: seq<StockDraw>)
      requires inventory == Empty(shelves) && forall d <- stock :: LegalStock(shelves, d)
      modifies `inventory
      ensures inventory == StockedAll(Empty(shelves), capacity, stock)
    {
      for i := 0 to |stock|
        invariant inventory == StockedAll(Empty(shelves), capacity, stock[..i])
      {
        assert stock[..i+1][..i] == stock[..i];
        var d := stock[i];
        assert LegalStock(shelves, d);
        StockingKeepsShelves(shelves, capacity, stock[..i]);
        if Used(inventory[d.shelf]) + d.qty <= capacity {
          inventory := inventory[d.shelf := More(inventory[d.shelf], d.item, d.qty)];
        }
      }
      assert stock[..|stock|] == stock;
    }

    /** The order stream: a running tally decides what can be drawn. */
    method Draw(draws: seq<Warehouse.Draw>)
      requires orders == [] && LegalAll(TotalsOf(inventory, shelves), |shelves| * capacity, draws)
      modifies `orders
      ensures orders == Orders(TotalsOf(inventory, shelves), |shelves| * capacity, draws)
    {
      hide Legal, OrderOf, TotalsOf;
      var start := TotalsOf(inventory, shelves);
      var totals := start;
      var room := |shelves| * capacity;
      assert draws[..0] == [];
      for i := 0 to |draws|
        invariant LegalAll(start, room, draws[..i])
        invariant orders == Orders(start, room, draws[..i]) && totals == TotalsAfter(start, room, draws[..i])
      {
        DrawnSoFar(start, room, draws, i);
        var o;
        o, totals := DrawOne(totals, room, draws[i]);
        orders := orders + [o];
      }
      assert draws[..|draws|] == draws;
    }

    static method DrawOne(before: Holds, room: nat, d: Warehouse.Draw) returns (o: Order, totals: Holds)
      requires Legal(before, room, d)
      ensures o == OrderOf(before, room, d) && totals == Tally(before, o)
    {
      totals := before;
      if d.r < 0.45 && Roomy(totals, room) {
        o := Store(d.item, d.qty);
        totals := totals[d.item := Get(totals, d.item) + d.qty];
      } else if d.r < 0.85 && InStock(totals) {
        o := Ship(d.item, 1);
        totals := totals[d.item := Get(totals, d.item) - 1];
      } else {
        o := Count(d.item);
      }
    }

    /** `act`: inspecting consumes nothing; anything else is scored and consumes the order, and only a correct store
        or ship changes the inventory. */
    method Act(c: Call) returns (ok: bool)
      requires Valid()
      modifies this
      ensures Valid() && orders == old(orders)
      ensures old(cursor) == |orders| ==> !ok && unchanged(this)
      ensures old(cursor) < |orders| && c.verb.InspectIt? ==>
        && (ok <==> c.shelf.Some? && c.shelf.value in inventory)
        && inventory == old(inventory) && cursor == old(cursor) && log == old(log)
        && inspections == old(inspections) + (if ok then 1 else 0)
      ensures old(cursor) < |orders| && !c.verb.InspectIt? ==>
        var o := orders[old(cursor)];
        && ok == Correct(old(inventory), shelves, capacity, o, c)
        && inventory == World(old(inventory), shelves, capacity, o, c)
        && cursor == old(cursor) + 1 && log == old(log) + [ok] && inspections == old(inspections)
    {
      hide ITEMS, Sound, ShelfFact, TotalFact, TotalOn, SoundShelf;
      if cursor >= |orders| {
        return false;
      }
      if c.verb.InspectIt? {
        ok := c.shelf.Some? && c.shelf.value in inventory;
        if ok {
          inspections := inspections + 1;
        }
        return;
      }
      ok := false;
      var o := orders[cursor];
      assert Sensible(o);
      match o {
        case Store(item, qty) =>
          if c.verb.StoreIt? && c.item == Some(item) && c.qty == Some(qty) && c.shelf.Some?
              && c.shelf.value in inventory
             && Used(inventory[c.shelf.value]) + qty <= capacity {
            FulfilKeepsSound(inventory, shelves, capacity, o, c.shelf.value);
            inventory := inventory[c.shelf.value := More(inventory[c.shelf.value], item, qty)];
            ok := true;
          }
        case Ship(item, qty) =>
          if c.verb.ShipIt? && c.item == Some(item) && c.qty == Some(qty) && c.shelf.Some? && c.shelf.value in inventory
             && qty <= Get(inventory[c.shelf.value], item) {
            FulfilKeepsSound(inventory, shelves, capacity, o, c.shelf.value);
            inventory := inventory[c.shelf.value := Less(inventory[c.shelf.value], item, qty)];
            ok := true;
          }
        case Count(item) =>
          ok := c.verb.CountIt? && c.answer == Some(TotalOn(inventory, shelves, item));
      }
      log := log + [ok];
      cursor := cursor + 1;
    }

    /** The tool around the simulator. */
    method Respond(c: Call) returns (ok: bool, facts: seq<Ledger.Report>)
      requires Valid()
      modifies this
      ensures Valid() && orders == old(orders)
      ensures facts == Facts(inventory, shelves, capacity, c, ok)
      ensures old(cursor) < |orders| && !c.verb.InspectIt? ==>
        var o := orders[old(cursor)];
        && ok == Correct(old(inventory), shelves, capacity, o, c)
        && inventory == World(old(inventory), shelves, capacity, o, c)
        && cursor == old(cursor) + 1 && log == old(log) + [ok]
      ensures old(cursor) == |orders| || c.verb.InspectIt? ==>
        inventory == old(inventory) && cursor == old(cursor) && log == old(log)
    {
      hide ITEMS, Sound, Correct, World, ShelfFact, TotalFact, TotalOn, Sensible;
      ok := Act(c);
      facts := [];
      if c.shelf.Some? && c.shelf.value in inventory && !c.verb.CountIt? {
        facts := facts + [Ledger.Report(c.shelf.value, ShelfFact(inventory[c.shelf.value], capacity))];
      }
      if ok && c.item.Some? && c.item.value != "" && (c.verb.StoreIt? || c.verb.ShipIt?) {
        facts := facts + [Ledger.Report(TotalKey(c.item.value),
                                        TotalFact(c.item.value, TotalOn(inventory, shelves, c.item.value)))];
      }
    }
  }

  lemma {:induction false} StockingKeepsShelves(shelves: seq<string>, capacity: nat, ds: seq<StockDraw>)
    ensures StockedAll(Empty(shelves), capacity, ds).Keys == (set s <- shelves)
    decreases |ds|
  {
    if ds != [] {
      StockingKeepsShelves(shelves, capacity, ds[..|ds|-1]);
    }
  }

  lemma DrawnSoFar(start: Holds, room: nat, draws: seq<Warehouse.Draw>, i: nat)
    requires LegalAll(start, room, draws) && i < |draws|
    ensures LegalAll(start, room, draws[..i]) && LegalAll(start, room, draws[..i+1])
    ensures Legal(TotalsAfter(start, room, draws[..i]), room, draws[i])
    ensures Orders(start, room, draws[..i+1]) == Orders(start, room, draws[..i])
      + [OrderOf(TotalsAfter(start, room, draws[..i]), room, draws[i])]
    ensures TotalsAfter(start, room, draws[..i+1])
      == Tally(TotalsAfter(start, room, draws[..i]), OrderOf(TotalsAfter(start, room, draws[..i]), room, draws[i]))
  {
    OrderAt(start, room, draws, i);
    assert draws[..i+1][..i] == draws[..i];
  }

  /** The stocked shelves are sound, and the orders drawn for them ask for what can be asked. */
  lemma StockedForOrders(n: nat, capacity: nat, stock: seq<StockDraw>, draws: seq<Draw>)
    requires forall d <- stock :: LegalStock(ShelfNames(n), d)
    requires LegalAll(TotalsOf(StockedAll(Empty(ShelfNames(n)), capacity, stock), ShelfNames(n)), n * capacity, draws)
    ensures var inv := StockedAll(Empty(ShelfNames(n)), capacity, stock);
      && |ShelfNames(n)| == n && Sound(inv, ShelfNames(n), capacity)
      && forall o <- Orders(TotalsOf(inv, ShelfNames(n)), n * capacity, draws) :: Sensible(o)
  {
    hide Orders, LegalAll, StockedAll, Sound, TotalsOf, ITEMS, LegalStock, Empty, Sensible;
    ShelfNamesDistinct(n);
    StockingIsSound(ShelfNames(n), capacity, stock);
    OrdersSensible(TotalsOf(StockedAll(Empty(ShelfNames(n)), capacity, stock), ShelfNames(n)), n * capacity, draws);
  }

  lemma OrdersSensible(totals: Holds, room: nat, draws: seq<Draw>)
    requires LegalAll(totals, room, draws)
    ensures forall o <- Orders(totals, room, draws) :: Sensible(o)
  {
    forall o | o in Orders(totals, room, draws) ensures Sensible(o) {
      var k :| 0 <= k < |draws| && Orders(totals, room, draws)[k] == o;
      OrderAt(totals, room, draws, k);
    }
  }
}
