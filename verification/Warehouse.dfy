/** The warehouse benchmark: the simulator, its order generator and when its orders can be fulfilled. */
module Warehouse {
  import opened Text
  import Lex = Order

  const ITEMS: seq<string> := ["bolt", "gear", "valve", "wire", "lens", "pump", "seal", "fuse", "clamp", "hinge"]
  const PRESTOCKED := 6

  /** What one shelf holds; an item that is not there is absent. */
  type Holds = map<string, nat>
  type Inventory = map<string, Holds>

  datatype Order = Store(item: string, qty: nat) | Ship(item: string, qty: nat) | Count(item: string)

  function Get(m: Holds, item: string): nat {
    if item in m then m[item] else 0
  }

  function SumOf(items: seq<string>, m: Holds): nat {
    if items == [] then 0 else SumOf(items[..|items|-1], m) + Get(m, items[|items|-1])
  }

  /** `sum(self.inventory[shelf].values())`, all of whose keys are items. */
  function Used(m: Holds): nat {
    SumOf(ITEMS, m)
  }

  function HoldsOn(inv: Inventory, shelf: string): Holds {
    if shelf in inv then inv[shelf] else map[]
  }

  function TotalOn(inv: Inventory, shelves: seq<string>, item: string): nat {
    if shelves == [] then 0
    else TotalOn(inv, shelves[..|shelves|-1], item) + Get(HoldsOn(inv, shelves[|shelves|-1]), item)
  }

  function UsedOn(inv: Inventory, shelves: seq<string>): nat {
    if shelves == [] then 0 else UsedOn(inv, shelves[..|shelves|-1]) + Used(HoldsOn(inv, shelves[|shelves|-1]))
  }

  /** `S01`, `S02`, ...: two digits at least. */
  function ShelfName(i: nat): string {
    "S" + (if i + 1 < 10 then "0" + Dec(i + 1) else Dec(i + 1))
  }

  function ShelfNames(n: nat): (r: seq<string>)
    ensures |r| == n && forall i :: 0 <= i < n ==> r[i] == ShelfName(i)
  {
    seq(n, i requires 0 <= i < n => ShelfName(i))
  }

  lemma ShelfNamesDistinct(n: nat)
    ensures Lex.NoDuplicates(ShelfNames(n))
  {
    forall i, j | 0 <= i < j < n ensures ShelfName(i) != ShelfName(j) {
      ShelfNameInjective(i, j);
    }
  }

  lemma ShelfNameInjective(i: nat, j: nat)
    requires i < j
    ensures ShelfName(i) != ShelfName(j)
  {
    if ShelfName(i) == ShelfName(j) {
      assert ShelfName(i)[1..] == ShelfName(j)[1..];
      if i + 1 >= 10 {
        assert Dec(i + 1) == Dec(j + 1);
        DecInjective(i + 1, j + 1);
      } else if j + 1 < 10 {
        assert ShelfName(i)[2..] == Dec(i + 1) && ShelfName(j)[2..] == Dec(j + 1);
        DecInjective(i + 1, j + 1);
      } else {
        assert ShelfName(i)[1] == '0' && ShelfName(j)[1] == Dec(j + 1)[0];
        NoLeadingZero(j + 1);
      }
    }
  }

  lemma {:induction false} NoLeadingZero(n: nat)
    requires n > 0
    ensures Dec(n)[0] != '0'
  {
    if n >= 10 {
      NoLeadingZero(n / 10);
    }
  }

  // ---- sums ----

  lemma {:induction false} SumOfOutside(items: seq<string>, m: Holds, item: string, q: nat)
    requires item !in items
    ensures SumOf(items, m[item := q]) == SumOf(items, m) && SumOf(items, m - {item}) == SumOf(items, m)
  {
    if items != [] {
      var n := |items| - 1;
      assert items == items[..n] + [items[n]];
      SumOfOutside(items[..n], m, item, q);
    }
  }

  lemma {:induction false} SumOfChange(items: seq<string>, m: Holds, m': Holds, item: string)
    requires Lex.NoDuplicates(items) && item in items
    requires forall x :: x != item ==> Get(m, x) == Get(m', x)
    ensures SumOf(items, m') == SumOf(items, m) - Get(m, item) + Get(m', item)
  {
    var n := |items| - 1;
    assert items == items[..n] + [items[n]];
    if items[n] == item {
      SumOfSame(items[..n], m, m', item);
    } else {
      SumOfChange(items[..n], m, m', item);
    }
  }

  lemma {:induction false} SumOfSame(items: seq<string>, m: Holds, m': Holds, item: string)
    requires item !in items
    requires forall x :: x != item ==> Get(m, x) == Get(m', x)
    ensures SumOf(items, m') == SumOf(items, m)
  {
    if items != [] {
      var n := |items| - 1;
      assert items == items[..n] + [items[n]];
      SumOfSame(items[..n], m, m', item);
    }
  }

  lemma ItemsDistinct()
    ensures Lex.NoDuplicates(ITEMS)
  {}

  /** Everything on the shelves, counted by item or counted by shelf. */
  lemma {:induction false} CountedTwice(inv: Inventory, shelves: seq<string>, items: seq<string>, totals: Holds)
    requires forall x <- items :: Get(totals, x) == TotalOn(inv, shelves, x)
    ensures SumOf(items, totals) == ShelfSums(inv, shelves, items)
    decreases |items|
  {
    if items == [] {
      NothingCounted(inv, shelves);
    } else {
      var n := |items| - 1;
      CountedTwice(inv, shelves, items[..n], totals);
      OneMoreItem(inv, shelves, items[..n], items[n]);
      assert items == items[..n] + [items[n]];
    }
  }

  function ShelfSums(inv: Inventory, shelves: seq<string>, items: seq<string>): nat {
    if shelves == [] then 0
    else ShelfSums(inv, shelves[..|shelves|-1], items) + SumOf(items, HoldsOn(inv, shelves[|shelves|-1]))
  }

  lemma {:induction false} NothingCounted(inv: Inventory, shelves: seq<string>)
    ensures ShelfSums(inv, shelves, []) == 0
  {
    if shelves != [] {
      NothingCounted(inv, shelves[..|shelves|-1]);
    }
  }

  lemma {:induction false} OneMoreItem(inv: Inventory, shelves: seq<string>, items: seq<string>, item: string)
    ensures ShelfSums(inv, shelves, items + [item]) == ShelfSums(inv, shelves, items) + TotalOn(inv, shelves, item)
  {
    if shelves != [] {
      OneMoreItem(inv, shelves[..|shelves|-1], items, item);
      assert (items + [item])[..|items|] == items;
    }
  }

  lemma {:induction false} UsedIsShelfSums(inv: Inventory, shelves: seq<string>)
    ensures ShelfSums(inv, shelves, ITEMS) == UsedOn(inv, shelves)
  {
    if shelves != [] {
      UsedIsShelfSums(inv, shelves[..|shelves|-1]);
    }
  }

  /** Pigeonhole: shelves that are all filled to `k` hold `k` times their number. */
  lemma {:induction false} FilledShelves(inv: Inventory, shelves: seq<string>, k: nat)
    requires forall s <- shelves :: Used(HoldsOn(inv, s)) >= k
    ensures UsedOn(inv, shelves) >= |shelves| * k
  {
    if shelves != [] {
      var n := |shelves| - 1;
      FilledShelves(inv, shelves[..n], k);
      assert |shelves| * k == n * k + k;
    }
  }

  /** An item in stock is on some shelf. */
  lemma {:induction false} StockIsSomewhere(inv: Inventory, shelves: seq<string>, item: string)
    requires TotalOn(inv, shelves, item) > 0
    ensures exists s <- shelves :: Get(HoldsOn(inv, s), item) > 0
  {
    var n := |shelves| - 1;
    if Get(HoldsOn(inv, shelves[n]), item) > 0 {
      assert shelves[n] in shelves;
    } else {
      StockIsSomewhere(inv, shelves[..n], item);
      var s :| s in shelves[..n] && Get(HoldsOn(inv, s), item) > 0;
      assert s in shelves;
    }
  }

  // ---- fulfilling orders ----

  function More(m: Holds, item: string, qty: nat): Holds {
    m[item := Get(m, item) + qty]
  }

  function Put(inv: Inventory, shelf: string, item: string, qty: nat): Inventory
    requires shelf in inv
  {
    inv[shelf := More(inv[shelf], item, qty)]
  }

  /** An item that runs out leaves the shelf. */
  function Less(m: Holds, item: string, qty: nat): Holds
    requires qty <= Get(m, item)
  {
    var left: nat := Get(m, item) - qty;
    if left == 0 then m - {item} else m[item := left]
  }

  function Take(inv: Inventory, shelf: string, item: string, qty: nat): Inventory
    requires shelf in inv && qty <= Get(inv[shelf], item)
  {
    inv[shelf := Less(inv[shelf], item, qty)]
  }

  /** A store order fits where there is room, a ship order where there is stock; a count order needs no shelf. */
  predicate Fits(inv: Inventory, capacity: nat, o: Order, shelf: string) {
    match o
    case Store(_, qty) => shelf in inv && Used(inv[shelf]) + qty <= capacity
    case Ship(item, qty) => shelf in inv && Get(inv[shelf], item) >= qty
    case Count(_) => true
  }

  function Fulfil(inv: Inventory, capacity: nat, o: Order, shelf: string): Inventory
    requires Fits(inv, capacity, o, shelf)
  {
    match o
    case Store(item, qty) => Put(inv, shelf, item, qty)
    case Ship(item, qty) => Take(inv, shelf, item, qty)
    case Count(_) => inv
  }

  /** Every order names an item of the catalogue, and stores at least one unit of it. */
  predicate Sensible(o: Order) {
    o.item in ITEMS && (o.Store? ==> o.qty > 0)
  }

  predicate SoundShelf(m: Holds, capacity: nat) {
    (forall x <- m :: x in ITEMS && m[x] > 0) && Used(m) <= capacity
  }

  /** The shelves are the given ones, none is over capacity and what is on them is there in a positive number. */
  predicate Sound(inv: Inventory, shelves: seq<string>, capacity: nat) {
    && inv.Keys == (set s <- shelves) && Lex.NoDuplicates(shelves)
    && forall s <- inv :: SoundShelf(inv[s], capacity)
  }

  lemma ShelfAfterStore(m: Holds, capacity: nat, item: string, qty: nat)
    requires SoundShelf(m, capacity) && item in ITEMS && Used(m) + qty <= capacity && qty > 0
    ensures SoundShelf(More(m, item, qty), capacity) && Used(More(m, item, qty)) == Used(m) + qty
  {
    SumOfChange(ITEMS, m, More(m, item, qty), item);
  }

  lemma ShelfAfterShip(m: Holds, capacity: nat, item: string, qty: nat)
    requires SoundShelf(m, capacity) && item in ITEMS && qty <= Get(m, item)
    ensures SoundShelf(Less(m, item, qty), capacity)
    ensures Used(Less(m, item, qty)) == Used(m) - qty && Get(Less(m, item, qty), item) == Get(m, item) - qty
  {
    SumOfChange(ITEMS, m, Less(m, item, qty), item);
  }

  /** Fulfilling an order keeps shelves within capacity and stock positive. */
  lemma FulfilKeepsSound(inv: Inventory, shelves: seq<string>, capacity: nat, o: Order, shelf: string)
    requires Sound(inv, shelves, capacity) && Sensible(o) && Fits(inv, capacity, o, shelf)
    ensures Sound(Fulfil(inv, capacity, o, shelf), shelves, capacity)
  {
    match o
    case Store(item, qty) => ShelfAfterStore(inv[shelf], capacity, item, qty);
    case Ship(item, qty) => ShelfAfterShip(inv[shelf], capacity, item, qty);
    case Count(_) =>
  }

  lemma {:induction false} TotalChanges(inv: Inventory, shelves: seq<string>, shelf: string, m: Holds, item: string)
    requires Lex.NoDuplicates(shelves) && shelf in inv
    ensures TotalOn(inv[shelf := m], shelves, item)
      == TotalOn(inv, shelves, item) + if shelf in shelves then Get(m, item) - Get(inv[shelf], item) else 0
  {
    if shelves != [] {
      var n := |shelves| - 1;
      assert shelves == shelves[..n] + [shelves[n]];
      TotalChanges(inv, shelves[..n], shelf, m, item);
    }
  }

  /** What an order does to the total of an item. */
  function Moves(o: Order, item: string): int {
    var qty: int := if o.Count? then 0 else o.qty;
    if o.item != item then 0 else if o.Ship? then -qty else qty
  }

  lemma FulfilMovesTotals(inv: Inventory, shelves: seq<string>, capacity: nat, o: Order, shelf: string, item: string)
    requires Sound(inv, shelves, capacity) && Fits(inv, capacity, o, shelf)
    ensures TotalOn(Fulfil(inv, capacity, o, shelf), shelves, item) == TotalOn(inv, shelves, item) + Moves(o, item)
  {
    if !o.Count? {
      var after := Fulfil(inv, capacity, o, shelf);
      assert after == inv[shelf := after[shelf]];
      TotalChanges(inv, shelves, shelf, after[shelf], item);
    }
  }

  // ---- the generator ----

  /** One round of the generator's random numbers: the branch, the chosen item, the quantity. */
  datatype Draw = Draw(r: real, item: string, qty: nat)

  /** `sum(totals) + 4 <= 0.6 * room`. */
  predicate Roomy(totals: Holds, room: nat) {
    5 * (SumOf(ITEMS, totals) + 4) <= 3 * room
  }

  predicate InStock(totals: Holds) {
    exists x <- ITEMS :: Get(totals, x) > 0
  }

  function OrderOf(totals: Holds, room: nat, d: Draw): Order {
    if d.r < 0.45 && Roomy(totals, room) then Store(d.item, d.qty)
    else if d.r < 0.85 && InStock(totals) then Ship(d.item, 1)
    else Count(d.item)
  }

  /** Items come from the catalogue, quantities from 1 to 4, and a shipped item from those in stock. */
  predicate Legal(totals: Holds, room: nat, d: Draw) {
    d.item in ITEMS && 1 <= d.qty <= 4 && (OrderOf(totals, room, d).Ship? ==> Get(totals, d.item) > 0)
  }

  function Tally(totals: Holds, o: Order): Holds
    requires o.Ship? ==> o.qty <= Get(totals, o.item)
  {
    match o
    case Store(item, qty) => totals[item := Get(totals, item) + qty]
    case Ship(item, qty) => totals[item := Get(totals, item) - qty]
    case Count(_) => totals
  }

  predicate LegalAll(totals: Holds, room: nat, draws: seq<Draw>)
    decreases |draws|, 0
  {
    draws == [] ||
    (LegalAll(totals, room, draws[..|draws|-1])
     && Legal(TotalsAfter(totals, room, draws[..|draws|-1]), room, draws[|draws|-1]))
  }

  function TotalsAfter(totals: Holds, room: nat, draws: seq<Draw>): Holds
    requires LegalAll(totals, room, draws)
    decreases |draws|, 1
  {
    if draws == [] then totals
    else
      var before := TotalsAfter(totals, room, draws[..|draws|-1]);
      Tally(before, OrderOf(before, room, draws[|draws|-1]))
  }

  function Orders(totals: Holds, room: nat, draws: seq<Draw>): (r: seq<Order>)
    requires LegalAll(totals, room, draws)
    ensures |r| == |draws|
    decreases |draws|
  {
    if draws == [] then []
    else
      var n := |draws| - 1;
      Orders(totals, room, draws[..n]) + [OrderOf(TotalsAfter(totals, room, draws[..n]), room, draws[n])]
  }

  lemma {:induction false} OrderAt(totals: Holds, room: nat, draws: seq<Draw>, k: nat)
    requires LegalAll(totals, room, draws) && k < |draws|
    ensures LegalAll(totals, room, draws[..k]) && LegalAll(totals, room, draws[..k+1])
    ensures Legal(TotalsAfter(totals, room, draws[..k]), room, draws[k])
    ensures Orders(totals, room, draws)[k] == OrderOf(TotalsAfter(totals, room, draws[..k]), room, draws[k])
    ensures TotalsAfter(totals, room, draws[..k+1])
      == Tally(TotalsAfter(totals, room, draws[..k]), Orders(totals, room, draws)[k])
    decreases |draws|
  {
    var n := |draws| - 1;
    if k < n {
      assert draws[..n][..k] == draws[..k] && draws[..n][..k+1] == draws[..k+1];
      OrderAt(totals, room, draws[..n], k);
    } else {
      assert draws[..k+1] == draws && draws[..k+1][..k] == draws[..k];
    }
  }

  // ---- solvability ----

  /** The shelves chosen for the first orders all fitted when their turn came. */
  predicate Plays(inv: Inventory, capacity: nat, orders: seq<Order>, choices: seq<string>)
    requires |choices| <= |orders|
    decreases |choices|, 0
  {
    choices == [] ||
    (var n := |choices| - 1;
     && Plays(inv, capacity, orders, choices[..n])
     && Fits(Played(inv, capacity, orders, choices[..n]), capacity, orders[n], choices[n]))
  }

  function Played(inv: Inventory, capacity: nat, orders: seq<Order>, choices: seq<string>): Inventory
    requires |choices| <= |orders| && Plays(inv, capacity, orders, choices)
    decreases |choices|, 1
  {
    if choices == [] then inv
    else
      var n := |choices| - 1;
      Fulfil(Played(inv, capacity, orders, choices[..n]), capacity, orders[n], choices[n])
  }

  /** The generator's totals at the beginning are the true ones. */
  predicate Tallied(inv: Inventory, shelves: seq<string>, totals: Holds) {
    forall x <- ITEMS :: Get(totals, x) == TotalOn(inv, shelves, x)
  }

  lemma SensibleOrder(totals: Holds, room: nat, d: Draw)
    requires Legal(totals, room, d)
    ensures Sensible(OrderOf(totals, room, d))
  {}

  lemma ShipsOne(totals: Holds, room: nat, d: Draw)
    requires Legal(totals, room, d)
    ensures var o := OrderOf(totals, room, d); o.Ship? ==> o.qty == 1 && o.qty <= Get(totals, o.item)
  {}

  /** As long as every order was fulfilled, the generator's totals are the true ones and the shelves are sound. */
  lemma {:induction false} PlayedTallies(inv: Inventory, shelves: seq<string>, capacity: nat, totals: Holds, room: nat,
                                         draws: seq<Draw>, choices: seq<string>)
    requires Sound(inv, shelves, capacity) && Tallied(inv, shelves, totals) && LegalAll(totals, room, draws)
    requires |choices| <= |draws| && Plays(inv, capacity, Orders(totals, room, draws), choices)
    ensures LegalAll(totals, room, draws[..|choices|])
    ensures var now := Played(inv, capacity, Orders(totals, room, draws), choices);
      Sound(now, shelves, capacity) && Tallied(now, shelves, TotalsAfter(totals, room, draws[..|choices|]))
    decreases |choices|
  {
    hide Sound, Tallied, Legal, OrderOf, Tally, Fulfil, Fits, Sensible;
    var orders := Orders(totals, room, draws);
    if choices == [] {
      assert draws[..0] == [];
    } else {
      var n := |choices| - 1;
      var before := Played(inv, capacity, orders, choices[..n]);
      PlayedTallies(inv, shelves, capacity, totals, room, draws, choices[..n]);
      OrderAt(totals, room, draws, n);
      SensibleOrder(TotalsAfter(totals, room, draws[..n]), room, draws[n]);
      ShipsOne(TotalsAfter(totals, room, draws[..n]), room, draws[n]);
      FulfilKeepsSound(before, shelves, capacity, orders[n], choices[n]);
      TallyKept(before, shelves, capacity, TotalsAfter(totals, room, draws[..n]), orders[n], choices[n]);
    }
  }

  lemma TallyKept(inv: Inventory, shelves: seq<string>, capacity: nat, totals: Holds, o: Order, shelf: string)
    requires Sound(inv, shelves, capacity) && Tallied(inv, shelves, totals) && Fits(inv, capacity, o, shelf)
    requires o.Ship? ==> o.qty <= Get(totals, o.item)
    ensures Tallied(Fulfil(inv, capacity, o, shelf), shelves, Tally(totals, o))
  {
    forall x | x in ITEMS ensures Get(Tally(totals, o), x) == TotalOn(Fulfil(inv, capacity, o, shelf), shelves, x) {
      FulfilMovesTotals(inv, shelves, capacity, o, shelf, x);
    }
  }

  /** The warehouse sizes for which no store order can find all shelves too full. */
  predicate WideEnough(shelves: nat, capacity: nat) {
    5 * (shelves * (if capacity <= 3 then 0 else capacity - 3)) + 20 > 3 * (shelves * capacity)
  }

  lemma EightIsEnough(shelves: nat, capacity: nat)
    requires capacity >= 8
    ensures WideEnough(shelves, capacity)
  {
    assert shelves * (capacity - 3) == shelves * capacity - 3 * shelves;
    assert shelves * capacity >= shelves * 8;
  }

  lemma RoomForStore(inv: Inventory, shelves: seq<string>, capacity: nat, totals: Holds, o: Order)
    requires Sound(inv, shelves, capacity) && Tallied(inv, shelves, totals) && WideEnough(|shelves|, capacity)
    requires Roomy(totals, |shelves| * capacity) && o.Store? && o.qty <= 4
    ensures exists s <- shelves :: Fits(inv, capacity, o, s)
  {
    if forall s <- shelves :: !Fits(inv, capacity, o, s) {
      var k := if capacity <= 3 then 0 else capacity - 3;
      forall s | s in shelves ensures Used(HoldsOn(inv, s)) >= k {
        assert !Fits(inv, capacity, o, s);
      }
      FilledShelves(inv, shelves, k);
      CountedTwice(inv, shelves, ITEMS, totals);
      UsedIsShelfSums(inv, shelves);
      assert false;
    }
  }

  lemma StockForShip(inv: Inventory, shelves: seq<string>, capacity: nat, totals: Holds, o: Order)
    requires Sound(inv, shelves, capacity) && Tallied(inv, shelves, totals)
    requires o.Ship? && o.qty == 1 && o.item in ITEMS && Get(totals, o.item) > 0
    ensures exists s <- shelves :: Fits(inv, capacity, o, s)
  {
    StockIsSomewhere(inv, shelves, o.item);
    var s :| s in shelves && Get(HoldsOn(inv, s), o.item) > 0;
    assert Fits(inv, capacity, o, s);
  }

  /** Some shelf fits the order, if it needs one. */
  predicate Feasible(inv: Inventory, shelves: seq<string>, capacity: nat, o: Order) {
    o.Count? || exists s <- shelves :: Fits(inv, capacity, o, s)
  }

  lemma NextFits(inv: Inventory, shelves: seq<string>, capacity: nat, totals: Holds, d: Draw)
    requires Sound(inv, shelves, capacity) && Tallied(inv, shelves, totals) && WideEnough(|shelves|, capacity)
    requires Legal(totals, |shelves| * capacity, d)
    ensures Feasible(inv, shelves, capacity, OrderOf(totals, |shelves| * capacity, d))
  {
    hide Sound, Tallied, WideEnough, ITEMS, Roomy, InStock, Fits, SumOf;
    var o := OrderOf(totals, |shelves| * capacity, d);
    match o
    case Store(_, _) => RoomForStore(inv, shelves, capacity, totals, o);
    case Ship(_, _) => StockForShip(inv, shelves, capacity, totals, o);
    case Count(_) =>
  }

  /** In a wide enough warehouse, whatever the generator draws and on whichever fitting shelves the orders so far were
      fulfilled, the next order fits somewhere. */
  lemma NeverStuck(inv: Inventory, shelves: seq<string>, capacity: nat, totals: Holds, draws: seq<Draw>,
                   choices: seq<string>)
    requires Sound(inv, shelves, capacity) && Tallied(inv, shelves, totals) && WideEnough(|shelves|, capacity)
    requires LegalAll(totals, |shelves| * capacity, draws) && |choices| < |draws|
    requires Plays(inv, capacity, Orders(totals, |shelves| * capacity, draws), choices)
    ensures var orders := Orders(totals, |shelves| * capacity, draws);
      Feasible(Played(inv, capacity, orders, choices), shelves, capacity, orders[|choices|])
  {
    hide *;
    var room := |shelves| * capacity;
    PlayedTallies(inv, shelves, capacity, totals, room, draws, choices);
    OrderAt(totals, room, draws, |choices|);
    NextFits(Played(inv, capacity, Orders(totals, room, draws), choices), shelves, capacity,
             TotalsAfter(totals, room, draws[..|choices|]),
             draws[|choices|]);
  }

  // ---- the beginning ----

  /** One attempt to stock a shelf beforehand. */
  datatype StockDraw = StockDraw(shelf: string, item: string, qty: nat)

  predicate LegalStock(shelves: seq<string>, d: StockDraw) {
    d.shelf in shelves && d.item in ITEMS[..PRESTOCKED] && 1 <= d.qty <= 4
  }

  function Stocked(inv: Inventory, capacity: nat, d: StockDraw): Inventory {
    if Fits(inv, capacity, Store(d.item, d.qty), d.shelf) then Put(inv, d.shelf, d.item, d.qty) else inv
  }

  function StockedAll(inv: Inventory, capacity: nat, ds: seq<StockDraw>): Inventory {
    if ds == [] then inv else Stocked(StockedAll(inv, capacity, ds[..|ds|-1]), capacity, ds[|ds|-1])
  }

  function Empty(shelves: seq<string>): Inventory {
    map s | s in shelves :: map[]
  }

  function TotalsOf(inv: Inventory, shelves: seq<string>): Holds {
    map x | x in ITEMS :: TotalOn(inv, shelves, x)
  }

  lemma {:induction false} EmptyShelfUsesNothing(items: seq<string>)
    ensures SumOf(items, map[]) == 0
  {
    if items != [] {
      EmptyShelfUsesNothing(items[..|items|-1]);
    }
  }

  /** Whatever is stocked beforehand, the warehouse starts sound and the generator starts from the true totals. */
  lemma {:induction false} StockingIsSound(shelves: seq<string>, capacity: nat, ds: seq<StockDraw>)
    requires Lex.NoDuplicates(shelves) && forall d <- ds :: LegalStock(shelves, d)
    ensures Sound(StockedAll(Empty(shelves), capacity, ds), shelves, capacity)
    decreases |ds|
  {
    if ds == [] {
      EmptyShelfUsesNothing(ITEMS);
    } else {
      var n := |ds| - 1;
      assert ds == ds[..n] + [ds[n]];
      StockingIsSound(shelves, capacity, ds[..n]);
      var before := StockedAll(Empty(shelves), capacity, ds[..n]);
      var o := Store(ds[n].item, ds[n].qty);
      assert LegalStock(shelves, ds[n]);
      if Fits(before, capacity, o, ds[n].shelf) {
        FulfilKeepsSound(before, shelves, capacity, o, ds[n].shelf);
      }
    }
  }

  /** For every warehouse that is not wide enough the generator can make the very first order infeasible: it stocks
      every shelf to just above what the largest store order needs, and draws that order. */
  lemma NarrowWarehouseGetsStuck(shelves: seq<string>, capacity: nat)
    requires Lex.NoDuplicates(shelves) && !WideEnough(|shelves|, capacity)
    ensures exists ds: seq<StockDraw>, d: Draw ::
      && |ds| == |shelves| && (forall x <- ds :: LegalStock(shelves, x))
      && var inv := StockedAll(Empty(shelves), capacity, ds); var room := |shelves| * capacity;
         && Legal(TotalsOf(inv, shelves), room, d)
         && !Feasible(inv, shelves, capacity, OrderOf(TotalsOf(inv, shelves), room, d))
  {
    var ds := EvenStock(shelves, capacity, |shelves|);
    var d := Draw(0.0, ITEMS[0], 4);
    var inv := StockedAll(Empty(shelves), capacity, ds);
    EvenStockFills(shelves, capacity, |shelves|);
    assert shelves[..|shelves|] == shelves;
    var k := if capacity <= 3 then 0 else capacity - 3;
    EvenlyUsed(inv, shelves, k);
    CountedTwice(inv, shelves, ITEMS, TotalsOf(inv, shelves));
    UsedIsShelfSums(inv, shelves);
    assert Roomy(TotalsOf(inv, shelves), |shelves| * capacity);
    assert OrderOf(TotalsOf(inv, shelves), |shelves| * capacity, d) == Store(ITEMS[0], 4);
    forall s | s in shelves ensures !Fits(inv, capacity, Store(ITEMS[0], 4), s) {
      assert Used(HoldsOn(inv, s)) == k;
    }
  }

  /** Stocks each of the first `n` shelves once: up to three below capacity, or not at all on tiny shelves. */
  function EvenStock(shelves: seq<string>, capacity: nat, n: nat): (ds: seq<StockDraw>)
    requires n <= |shelves|
    ensures |ds| == n
  {
    seq(n, i requires 0 <= i < n => StockDraw(shelves[i], ITEMS[0], if 4 <= capacity <= 7 then capacity - 3 else 4))
  }

  lemma NarrowIsSmall(shelves: nat, capacity: nat)
    requires !WideEnough(shelves, capacity)
    ensures capacity <= 7
  {
    if capacity >= 8 {
      EightIsEnough(shelves, capacity);
    }
  }

  lemma EvenStockStep(shelves: seq<string>, capacity: nat, n: nat)
    requires n < |shelves|
    ensures EvenStock(shelves, capacity, n + 1)[..n] == EvenStock(shelves, capacity, n)
  {}

  /** The first `n` shelves are stocked, the rest is empty. */
  predicate EvenlyStocked(inv: Inventory, shelves: seq<string>, capacity: nat, n: nat)
    requires n <= |shelves|
  {
    var k := if capacity <= 3 then 0 else capacity - 3;
    && inv.Keys == (set s <- shelves)
    && (forall i :: 0 <= i < n ==> Used(HoldsOn(inv, shelves[i])) == k)
    && (forall i :: n <= i < |shelves| ==> HoldsOn(inv, shelves[i]) == map[])
  }

  lemma {:induction false} EvenStockFills(shelves: seq<string>, capacity: nat, n: nat)
    requires Lex.NoDuplicates(shelves) && !WideEnough(|shelves|, capacity) && n <= |shelves|
    ensures EvenlyStocked(StockedAll(Empty(shelves), capacity, EvenStock(shelves, capacity, n)), shelves, capacity, n)
    ensures forall d <- EvenStock(shelves, capacity, n) :: LegalStock(shelves, d)
    decreases n
  {
    NarrowIsSmall(|shelves|, capacity);
    assert ITEMS[0] == ITEMS[..PRESTOCKED][0];
    if n > 0 {
      EvenStockFills(shelves, capacity, n - 1);
      EvenStockStep(shelves, capacity, n - 1);
      var before := StockedAll(Empty(shelves), capacity, EvenStock(shelves, capacity, n - 1));
      FillOne(before, shelves, capacity, n - 1, EvenStock(shelves, capacity, n)[n-1]);
    }
  }

  lemma FillOne(inv: Inventory, shelves: seq<string>, capacity: nat, n: nat, d: StockDraw)
    requires Lex.NoDuplicates(shelves) && n < |shelves| && capacity <= 7 && EvenlyStocked(inv, shelves, capacity, n)
    requires d == StockDraw(shelves[n], ITEMS[0], if 4 <= capacity <= 7 then capacity - 3 else 4)
    ensures EvenlyStocked(Stocked(inv, capacity, d), shelves, capacity, n + 1)
  {
    EmptyShelfUsesNothing(ITEMS);
    ItemsDistinct();
    SumOfChange(ITEMS, map[], More(map[], d.item, d.qty), d.item);
    assert shelves[n] in inv && inv[shelves[n]] == map[];
    assert inv[shelves[n]] == HoldsOn(inv, shelves[n]);
  }

  lemma {:induction false} EvenlyUsed(inv: Inventory, shelves: seq<string>, k: nat)
    requires forall i :: 0 <= i < |shelves| ==> Used(HoldsOn(inv, shelves[i])) == k
    ensures UsedOn(inv, shelves) == |shelves| * k
  {
    if shelves != [] {
      var n := |shelves| - 1;
      EvenlyUsed(inv, shelves[..n], k);
      assert |shelves| * k == n * k + k;
    }
  }
}
