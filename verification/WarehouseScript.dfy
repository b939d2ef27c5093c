/** The warehouse ledger against the true world, and the scripted policy that reads it. */
module WarehouseScript {
  import opened Domain
  import opened State
  import opened Warehouse
  import opened WarehouseSim
  import opened Seeding
  import opened Words
  import Ledger
  import LedgerProofs
  import ApplyFrame
  import Text
  import Lex = Order

  const TOOL := "warehouse"

  // ---- the ledger and the world ----

  /** The total the ledger knows of an item; no entry counts as none. */
  function LedgerTotal(entries: Dict, item: string): int {
    if TotalKey(item) in entries then NumAt(Bare(entries[TotalKey(item)]), ["total"]) else 0
  }

  predicate ShelfAgrees(entries: Dict, inv: Inventory, capacity: nat, shelf: string)
    requires shelf in inv
  {
    shelf in entries && Bare(entries[shelf]) == ShelfFact(inv[shelf], capacity)
  }

  function KnownKeys(shelves: seq<string>): set<string> {
    (set s <- shelves) + (set x <- ITEMS :: TotalKey(x))
  }

  /** The ledger holds every shelf as it is, and every total. */
  predicate Agrees(entries: Dict, inv: Inventory, shelves: seq<string>, capacity: nat) {
    && entries.Keys <= KnownKeys(shelves)
    && (forall s <- inv :: ShelfAgrees(entries, inv, capacity, s))
    && (forall x <- ITEMS :: LedgerTotal(entries, x) == TotalOn(inv, shelves, x))
  }

  /** Shelf names start with a capital letter and are ledger keys as they stand. */
  predicate PlainName(s: string) {
    s != "" && s[0] == 'S' && Ledger.Sanitize(s) == s
  }

  predicate PlainNames(shelves: seq<string>) {
    forall s <- shelves :: PlainName(s)
  }

  /** The simulator's own shelf names are plain, up to the length at which the ledger cuts its keys. */
  lemma ShelfNamesArePlain(n: nat)
    requires n < Text.Pow10(118)
    ensures PlainNames(ShelfNames(n))
  {
    hide Text.Pow10;
    forall s | s in ShelfNames(n) ensures PlainName(s) {
      var i :| 0 <= i < n && ShelfNames(n)[i] == s;
      Text.DecLength(i + 1, 118);
      ShelfNameIsPlain(i);
    }
  }

  lemma ShelfNameIsPlain(i: nat)
    requires |Text.Dec(i + 1)| <= 118
    ensures PlainName(ShelfName(i))
  {
    var s := ShelfName(i);
    forall c | c in s ensures Ledger.CleanChar(c) {
      assert c == 'S' || c == '0' || c in Text.Dec(i + 1);
    }
  }

  lemma ItemsAreLowerCase()
    ensures forall x <- ITEMS :: LowerCase(x) && 0 < |x| <= 10
  {
    assert LowerCase(ITEMS[0]) && LowerCase(ITEMS[1]) && LowerCase(ITEMS[2]) && LowerCase(ITEMS[3])
        && LowerCase(ITEMS[4]);
    assert LowerCase(ITEMS[5]) && LowerCase(ITEMS[6]) && LowerCase(ITEMS[7]) && LowerCase(ITEMS[8])
        && LowerCase(ITEMS[9]);
  }

  lemma TotalKeyIsPlain(item: string)
    requires LowerCase(item) && 0 < |item| <= 10
    ensures Ledger.Sanitize(TotalKey(item)) == TotalKey(item) && !PlainName(TotalKey(item))
  {
    var key := TotalKey(item);
    assert key[0] == 't';
    forall c | c in key ensures Ledger.CleanChar(c) {
      assert c in "total_" || c in item;
    }
  }

  lemma TotalKeysDiffer(x: string, y: string)
    requires TotalKey(x) == TotalKey(y)
    ensures x == y
  {
    assert TotalKey(x)[6..] == x && TotalKey(y)[6..] == y;
  }

  lemma SizeOfUnion(a: set<string>, b: set<string>)
    ensures |a + b| <= |a| + |b|
  {
    assert a + b == a + (b - a);
    Subset(b - a, b);
  }

  /** Every key the ledger can ever hold. */
  lemma KnownKeysFit(shelves: seq<string>)
    ensures |KnownKeys(shelves)| <= |shelves| + |ITEMS|
  {
    hide ITEMS, TotalKey;
    var names, items := set s <- shelves, set x <- ITEMS;
    var totals := set x | x in items :: TotalKey(x);
    SetOfSeq(shelves);
    SetOfSeq(ITEMS);
    ImageNotLarger(items);
    SizeOfUnion(names, totals);
    assert KnownKeys(shelves) == names + totals;
  }

  lemma {:induction false} SetOfSeq(xs: seq<string>)
    ensures |(set x <- xs)| <= |xs|
  {
    if xs != [] {
      var n := |xs| - 1;
      SetOfSeq(xs[..n]);
      assert xs == xs[..n] + [xs[n]];
      assert (set x <- xs) == (set x <- xs[..n]) + {xs[n]};
    }
  }

  lemma {:induction false} ImageNotLarger(s: set<string>)
    ensures |(set x | x in s :: TotalKey(x))| <= |s|
    decreases |s|
  {
    if s != {} {
      var y :| y in s;
      ImageNotLarger(s - {y});
      assert (set x | x in s :: TotalKey(x)) == (set x | x in s - {y} :: TotalKey(x)) + {TotalKey(y)};
    }
  }

  // ---- one call ----

  /** What one call reports: nothing, the shelf it names, or the shelf and the total of the item it moved. */
  lemma FactsShape(inv: Inventory, shelves: seq<string>, capacity: nat, c: Call, ok: bool)
    requires ok && (c.verb.StoreIt? || c.verb.ShipIt?)
      ==> c.shelf.Some? && c.shelf.value in inv && c.item.Some? && c.item.value in ITEMS
    ensures var facts := Facts(inv, shelves, capacity, c, ok);
      var named := c.shelf.Some? && c.shelf.value in inv && !c.verb.CountIt?;
      facts == if !named then []
               else if ok && (c.verb.StoreIt? || c.verb.ShipIt?)
               then [Ledger.Report(c.shelf.value, ShelfFact(inv[c.shelf.value], capacity)),
                     Ledger.Report(TotalKey(c.item.value),
                                   TotalFact(c.item.value, TotalOn(inv, shelves, c.item.value)))]
               else [Ledger.Report(c.shelf.value, ShelfFact(inv[c.shelf.value], capacity))]
  {
    ItemsAreLowerCase();
    hide ITEMS, ShelfFact, TotalFact, TotalOn, TotalKey, LowerCase;
  }

  lemma BareShelf(m: Holds, capacity: nat, event: string, step: nat)
    ensures Bare(Ledger.EntryOf(ShelfFact(m, capacity), event, step)) == ShelfFact(m, capacity)
  {
    BareEntry(ShelfFact(m, capacity), event, step);
  }

  lemma BareTotal(item: string, total: nat, event: string, step: nat)
    ensures NumAt(Bare(Ledger.EntryOf(TotalFact(item, total), event, step)), ["total"]) == total
  {
    BareEntry(TotalFact(item, total), event, step);
  }

  /** The ledger entries after a call that reports only the shelf it names, which it left as it was. */
  lemma AgreesAfterShelf(entries: Dict, after: Dict, inv: Inventory, shelves: seq<string>, capacity: nat, shelf: string,
                         event: string, step: nat)
    requires Agrees(entries, inv, shelves, capacity) && Sound(inv, shelves, capacity) && PlainNames(shelves)
    requires shelf in inv
    requires after.Keys == entries.Keys + {shelf}
    requires forall k <- after ::
      after[k] == if k == shelf then Ledger.EntryOf(ShelfFact(inv[shelf], capacity), event, step) else entries[k]
    ensures Agrees(after, inv, shelves, capacity)
  {
    hide ITEMS, Ledger.Sanitize, Bare, ShelfFact, Ledger.EntryOf, SoundShelf;
    BareShelf(inv[shelf], capacity, event, step);
    assert shelf in shelves && PlainName(shelf);
    ItemsAreLowerCase();
    forall x | x in ITEMS ensures LedgerTotal(after, x) == LedgerTotal(entries, x) {
      TotalKeyIsPlain(x);
    }
  }

  lemma StaysKnown(shelves: seq<string>, keys: set<string>, shelf: string, item: string)
    requires keys <= KnownKeys(shelves) && shelf in shelves && item in ITEMS
    ensures keys + {shelf, TotalKey(item)} <= KnownKeys(shelves)
  {
    hide ITEMS, TotalKey;
  }

  /** The ledger entries after a successful store or ship. */
  lemma AgreesAfterMove(entries: Dict, after: Dict, inv: Inventory, inv': Inventory, shelves: seq<string>,
                        capacity: nat, shelf: string, item: string, event: string, step: nat)
    requires Agrees(entries, inv, shelves, capacity) && Sound(inv, shelves, capacity) && PlainNames(shelves)
    requires shelf in inv && item in ITEMS
    requires inv'.Keys == inv.Keys && (forall s <- inv :: s != shelf ==> inv'[s] == inv[s])
    requires forall x :: x in ITEMS && x != item ==> TotalOn(inv', shelves, x) == TotalOn(inv, shelves, x)
    requires BothRecorded(entries, after, shelf, Ledger.EntryOf(ShelfFact(inv'[shelf], capacity), event, step),
                          TotalKey(item), Ledger.EntryOf(TotalFact(item, TotalOn(inv', shelves, item)), event, step))
    ensures Agrees(after, inv', shelves, capacity)
  {
    hide ITEMS, Ledger.Sanitize, Bare, ShelfFact, TotalFact, Ledger.EntryOf, SoundShelf, TotalOn, PlainName, TotalKey,
      NumAt, LowerCase, KnownKeys;
    assert after.Keys <= KnownKeys(shelves) by { StaysKnown(shelves, entries.Keys, shelf, item); }
    assert shelf in shelves && PlainName(shelf);
    ItemsAreLowerCase();
    TotalKeyIsPlain(item);
    BareShelf(inv'[shelf], capacity, event, step);
    BareTotal(item, TotalOn(inv', shelves, item), event, step);
    forall s | s in inv' ensures ShelfAgrees(after, inv', capacity, s) {
      assert s in shelves && PlainName(s);
    }
    forall x | x in ITEMS ensures LedgerTotal(after, x) == TotalOn(inv', shelves, x) {
      TotalKeyIsPlain(x);
      if x != item && TotalKey(x) == TotalKey(item) {
        TotalKeysDiffer(x, item);
      }
    }
  }

  lemma MovedWorld(inv: Inventory, shelves: seq<string>, capacity: nat, o: Order, shelf: string)
    requires Sound(inv, shelves, capacity) && Sensible(o) && Fits(inv, capacity, o, shelf) && !o.Count?
    ensures var inv' := Fulfil(inv, capacity, o, shelf);
      && inv'.Keys == inv.Keys && shelf in inv && (forall s <- inv :: s != shelf ==> inv'[s] == inv[s])
      && forall x :: x in ITEMS && x != o.item ==> TotalOn(inv', shelves, x) == TotalOn(inv, shelves, x)
  {
    forall x | x in ITEMS && x != o.item
        ensures TotalOn(Fulfil(inv, capacity, o, shelf), shelves, x) == TotalOn(inv, shelves, x) {
      FulfilMovesTotals(inv, shelves, capacity, o, shelf, x);
    }
  }

  /** Whatever an agent answers to an order, right or wrong, the ledger tracks the true world, provided that all
      shelves and totals fit under the cap. */
  lemma LedgerTracksTheWorld(entries: Dict, after: Dict, inv: Inventory, shelves: seq<string>, capacity: nat, o: Order,
                             c: Call,
                             event: string, step: nat, cap: nat)
    requires Agrees(entries, inv, shelves, capacity) && Sound(inv, shelves, capacity) && PlainNames(shelves)
    requires Sensible(o)
    requires LedgerProofs.OlderThan(entries, step) && |shelves| + |ITEMS| <= cap && !c.verb.InspectIt?
    requires var ok := Correct(inv, shelves, capacity, o, c);
      LedgerTurn(entries, after, Facts(World(inv, shelves, capacity, o, c), shelves, capacity, c, ok), event, step, cap)
    ensures Agrees(after, World(inv, shelves, capacity, o, c), shelves, capacity)
    ensures LedgerProofs.OlderThan(after, step + 1)
  {
    var ok := Correct(inv, shelves, capacity, o, c);
    var inv' := World(inv, shelves, capacity, o, c);
    var facts := Facts(inv', shelves, capacity, c, ok);
    FactsShape(inv', shelves, capacity, c, ok);
    KnownKeysFit(shelves);
    if ok && !o.Count? {
      MovedWorld(inv, shelves, capacity, o, c.shelf.value);
      MoveTracked(entries, after, inv, inv', shelves, capacity, c.shelf.value, o.item, event, step, cap);
    } else if facts != [] {
      StillTracked(entries, after, inv, shelves, capacity, c.shelf.value, event, step, cap);
    }
  }

  /** So it does for calls that consume no order: inspections, and anything said after the last order. */
  lemma LedgerTracksIdleCalls(entries: Dict, after: Dict, inv: Inventory, shelves: seq<string>, capacity: nat, c: Call,
                              ok: bool,
                              event: string, step: nat, cap: nat)
    requires Agrees(entries, inv, shelves, capacity) && Sound(inv, shelves, capacity) && PlainNames(shelves)
    requires LedgerProofs.OlderThan(entries, step) && |shelves| + |ITEMS| <= cap && (c.verb.InspectIt? || !ok)
    requires LedgerTurn(entries, after, Facts(inv, shelves, capacity, c, ok), event, step, cap)
    ensures Agrees(after, inv, shelves, capacity) && LedgerProofs.OlderThan(after, step + 1)
  {
    FactsShape(inv, shelves, capacity, c, ok);
    KnownKeysFit(shelves);
    hide Agrees, Sound, PlainNames, LedgerProofs.Follows, KnownKeys, ITEMS, ShelfFact, TotalFact;
    if Facts(inv, shelves, capacity, c, ok) != [] {
      StillTracked(entries, after, inv, shelves, capacity, c.shelf.value, event, step, cap);
    } else {
      OlderLater(entries, step, step + 1);
    }
  }

  lemma StillTracked(entries: Dict, after: Dict, inv: Inventory, shelves: seq<string>, capacity: nat, shelf: string,
                     event: string, step: nat, cap: nat)
    requires Agrees(entries, inv, shelves, capacity) && Sound(inv, shelves, capacity) && PlainNames(shelves)
    requires shelf in inv
    requires LedgerProofs.OlderThan(entries, step) && |KnownKeys(shelves)| <= cap
    requires LedgerProofs.Follows(entries, after,
                                  LedgerProofs.Batch([Ledger.Report(shelf, ShelfFact(inv[shelf], capacity))], event,
                                                     step), cap)
    ensures Agrees(after, inv, shelves, capacity) && LedgerProofs.OlderThan(after, step + 1)
  {
    hide ITEMS, Ledger.Sanitize, Bare, ShelfFact, Ledger.EntryOf, SoundShelf, LedgerProofs.Follows;
    assert shelf in shelves && PlainName(shelf);
    OneReport(entries, after, Ledger.Report(shelf, ShelfFact(inv[shelf], capacity)), event, step, cap,
              KnownKeys(shelves));
    AgreesAfterShelf(entries, after, inv, shelves, capacity, shelf, event, step);
  }

  lemma MoveTracked(entries: Dict, after: Dict, inv: Inventory, inv': Inventory, shelves: seq<string>, capacity: nat,
                    shelf: string, item: string, event: string, step: nat, cap: nat)
    requires Agrees(entries, inv, shelves, capacity) && Sound(inv, shelves, capacity) && PlainNames(shelves)
    requires shelf in inv && item in ITEMS
    requires inv'.Keys == inv.Keys && (forall s <- inv :: s != shelf ==> inv'[s] == inv[s])
    requires forall x :: x in ITEMS && x != item ==> TotalOn(inv', shelves, x) == TotalOn(inv, shelves, x)
    requires LedgerProofs.OlderThan(entries, step) && |KnownKeys(shelves)| <= cap
    requires LedgerProofs.Follows(entries, after, LedgerProofs.Batch(
               [Ledger.Report(shelf, ShelfFact(inv'[shelf], capacity)),
                Ledger.Report(TotalKey(item), TotalFact(item, TotalOn(inv', shelves, item)))],
               event, step), cap)
    ensures Agrees(after, inv', shelves, capacity) && LedgerProofs.OlderThan(after, step + 1)
  {
    hide ITEMS, Ledger.Sanitize, Bare, ShelfFact, TotalFact, Ledger.EntryOf, SoundShelf, TotalOn, LedgerProofs.Follows,
      BothRecorded;
    var r := Ledger.Report(shelf, ShelfFact(inv'[shelf], capacity));
    var q := Ledger.Report(TotalKey(item), TotalFact(item, TotalOn(inv', shelves, item)));
    assert shelf in shelves && PlainName(shelf);
    ItemsAreLowerCase();
    TotalKeyIsPlain(item);
    TwoReports(entries, after, r, q, event, step, cap, KnownKeys(shelves));
    hide Agrees, KnownKeys, PlainNames, Sound, TotalKey, LedgerProofs.OlderThan;
    AgreesAfterMove(entries, after, inv, inv', shelves, capacity, shelf, item, event, step);
  }

  // ---- the initial ledger ----

  function ShelfSeeds(inv: Inventory, shelves: seq<string>, capacity: nat): seq<Ledger.Report> {
    if shelves == [] then []
    else
      var last := shelves[|shelves|-1];
      ShelfSeeds(inv, shelves[..|shelves|-1], capacity) + [Ledger.Report(last, ShelfFact(HoldsOn(inv, last), capacity))]
  }

  function TotalSeeds(inv: Inventory, shelves: seq<string>, items: seq<string>): seq<Ledger.Report> {
    if items == [] then []
    else
      var x := items[|items|-1];
      TotalSeeds(inv, shelves, items[..|items|-1])
      + if TotalOn(inv, shelves, x) > 0 then [Ledger.Report(TotalKey(x), TotalFact(x, TotalOn(inv, shelves, x)))]
          else []
  }

  function Seeds(inv: Inventory, shelves: seq<string>, capacity: nat): seq<Ledger.Report> {
    ShelfSeeds(inv, shelves, capacity) + TotalSeeds(inv, shelves, ITEMS)
  }

  /** `initial_ops`: the capacity, every shelf, every total that is not zero. */
  function InitialOps(inv: Inventory, shelves: seq<string>, capacity: nat): seq<Op> {
    [SetPath(["capacity"], Num(capacity))] + SeedOps(TOOL, Seeds(inv, shelves, capacity))
  }

  lemma {:induction false} ShelfSeedsHold(inv: Inventory, shelves: seq<string>, capacity: nat)
    ensures var d := SeedDict(ShelfSeeds(inv, shelves, capacity));
      && d.Keys == (set s <- shelves)
      && forall s <- shelves :: d[s] == Obj(ShelfFact(HoldsOn(inv, s), capacity))
    decreases |shelves|
  {
    if shelves != [] {
      var n := |shelves| - 1;
      assert shelves == shelves[..n] + [shelves[n]];
      ShelfSeedsHold(inv, shelves[..n], capacity);
      var before := ShelfSeeds(inv, shelves[..n], capacity);
      assert ShelfSeeds(inv, shelves, capacity)[..|before|] == before;
    }
  }

  predicate IsTotalOf(key: string, items: seq<string>) {
    exists x <- items :: TotalKey(x) == key
  }

  /** An item has an entry exactly if there is some of it. */
  predicate TotalHeld(d: Dict, inv: Inventory, shelves: seq<string>, x: string) {
    if TotalOn(inv, shelves, x) > 0 then TotalKey(x) in d
        && d[TotalKey(x)] == Obj(TotalFact(x, TotalOn(inv, shelves, x)))
    else TotalKey(x) !in d
  }

  predicate TotalsHeld(d: Dict, inv: Inventory, shelves: seq<string>, items: seq<string>) {
    (forall k <- d :: IsTotalOf(k, items)) && (forall x <- items :: TotalHeld(d, inv, shelves, x))
  }

  lemma {:induction false} TotalSeedsHold(inv: Inventory, shelves: seq<string>, items: seq<string>)
    requires Lex.NoDuplicates(items)
    ensures TotalsHeld(SeedDict(TotalSeeds(inv, shelves, items)), inv, shelves, items)
    decreases |items|
  {
    hide TotalsHeld, TotalFact, TotalOn, TotalKey;
    if items == [] {
      NoTotals(inv, shelves);
    } else {
      var n := |items| - 1;
      TotalSeedsHold(inv, shelves, items[..n]);
      var before := TotalSeeds(inv, shelves, items[..n]);
      assert items == items[..n] + [items[n]];
      if TotalOn(inv, shelves, items[n]) > 0 {
        assert TotalSeeds(inv, shelves, items)[..|before|] == before;
        OneMoreTotal(SeedDict(before), inv, shelves, items[..n], items[n]);
      } else {
        assert TotalSeeds(inv, shelves, items) == before;
        OneMissingTotal(SeedDict(before), inv, shelves, items[..n], items[n]);
      }
    }
  }

  lemma NoTotals(inv: Inventory, shelves: seq<string>)
    ensures TotalsHeld(map[], inv, shelves, [])
  {}

  lemma NotTotalOf(x: string, items: seq<string>)
    requires x !in items
    ensures !IsTotalOf(TotalKey(x), items)
  {
    forall y | y in items ensures TotalKey(y) != TotalKey(x) {
      if TotalKey(y) == TotalKey(x) {
        TotalKeysDiffer(y, x);
      }
    }
  }

  lemma OneMoreTotal(d: Dict, inv: Inventory, shelves: seq<string>, items: seq<string>, x: string)
    requires TotalsHeld(d, inv, shelves, items) && x !in items && TotalOn(inv, shelves, x) > 0
    ensures TotalsHeld(d[TotalKey(x) := Obj(TotalFact(x, TotalOn(inv, shelves, x)))], inv, shelves, items + [x])
  {
    NotTotalOf(x, items);
    hide TotalKey, TotalFact, TotalOn;
    var d' := d[TotalKey(x) := Obj(TotalFact(x, TotalOn(inv, shelves, x)))];
    forall y | y in items + [x] ensures TotalHeld(d', inv, shelves, y) {
      if y in items {
        assert TotalKey(y) != TotalKey(x);
      }
    }
    forall k | k in d' ensures IsTotalOf(k, items + [x]) {
      MoreTotals(k, items, x);
    }
  }

  lemma OneMissingTotal(d: Dict, inv: Inventory, shelves: seq<string>, items: seq<string>, x: string)
    requires TotalsHeld(d, inv, shelves, items) && x !in items && TotalOn(inv, shelves, x) == 0
    ensures TotalsHeld(d, inv, shelves, items + [x])
  {
    NotTotalOf(x, items);
    hide TotalKey, TotalFact, TotalOn;
    forall k | k in d ensures IsTotalOf(k, items + [x]) {
      MoreTotals(k, items, x);
    }
  }

  lemma MoreTotals(key: string, items: seq<string>, x: string)
    ensures IsTotalOf(key, items) || key == TotalKey(x) ==> IsTotalOf(key, items + [x])
  {
    hide TotalKey;
    assert x in items + [x];
    if y :| y in items && TotalKey(y) == key {
      assert y in items + [x];
    }
  }

  lemma {:induction false} SeedDictAppend(a: seq<Ledger.Report>, b: seq<Ledger.Report>)
    ensures SeedDict(a + b) == SeedDict(a) + SeedDict(b)
    decreases |b|
  {
    if b == [] {
      assert a + b == a;
    } else {
      var n := |b| - 1;
      SeedDictAppend(a, b[..n]);
      assert (a + b)[..|a + b| - 1] == a + b[..n];
      LedgerProofs.UpdateOfUnion(SeedDict(a), SeedDict(b[..n]), b[n].key, Obj(b[n].fact));
    }
  }

  lemma PlainIsNoTotal(s: string)
    requires PlainName(s)
    ensures !IsTotalOf(s, ITEMS)
  {
    ItemsAreLowerCase();
    forall x | x in ITEMS ensures TotalKey(x) != s {
      TotalKeyIsPlain(x);
    }
  }

  lemma PartsAgree(a: Dict, b: Dict, inv: Inventory, shelves: seq<string>, capacity: nat)
    requires Sound(inv, shelves, capacity) && PlainNames(shelves) && TotalsHeld(b, inv, shelves, ITEMS)
    requires a.Keys == (set s <- shelves) && forall s <- shelves :: a[s] == Obj(ShelfFact(HoldsOn(inv, s), capacity))
    ensures Agrees(a + b, inv, shelves, capacity)
  {
    hide ITEMS, Ledger.Sanitize, ShelfFact, TotalFact, TotalOn, Bare, SoundShelf;
    ItemsAreLowerCase();
    forall x | x in ITEMS ensures LedgerTotal(a + b, x) == TotalOn(inv, shelves, x) {
      TotalKeyIsPlain(x);
      assert TotalKey(x) in a ==> PlainName(TotalKey(x));
      BareTotalSeed(x, TotalOn(inv, shelves, x));
      assert TotalHeld(b, inv, shelves, x);
    }
    forall s | s in inv ensures ShelfAgrees(a + b, inv, capacity, s) {
      assert s in shelves && PlainName(s);
      PlainIsNoTotal(s);
      BareShelfSeed(inv[s], capacity);
    }
    forall k | k in a + b ensures k in KnownKeys(shelves) {
      if k in b {
        assert IsTotalOf(k, ITEMS);
      }
    }
  }

  lemma BareShelfSeed(m: Holds, capacity: nat)
    ensures Bare(Obj(ShelfFact(m, capacity))) == ShelfFact(m, capacity)
  {
    BareEntry(ShelfFact(m, capacity), "", 0);
  }

  lemma BareTotalSeed(item: string, total: nat)
    ensures NumAt(Bare(Obj(TotalFact(item, total))), ["total"]) == total
  {
    BareEntry(TotalFact(item, total), "", 0);
  }

  /** The seeded ledger agrees with the initial world and is older than any step. */
  lemma InitialLedgerAgrees(inv: Inventory, shelves: seq<string>, capacity: nat)
    requires Sound(inv, shelves, capacity) && PlainNames(shelves)
    ensures Agrees(SeedDict(Seeds(inv, shelves, capacity)), inv, shelves, capacity)
    ensures LedgerProofs.OlderThan(SeedDict(Seeds(inv, shelves, capacity)), 0)
  {
    hide Agrees, PlainNames, Sound, SeedDict;
    ItemsDistinct();
    ShelfSeedsHold(inv, shelves, capacity);
    TotalSeedsHold(inv, shelves, ITEMS);
    SeedDictAppend(ShelfSeeds(inv, shelves, capacity), TotalSeeds(inv, shelves, ITEMS));
    PartsAgree(SeedDict(ShelfSeeds(inv, shelves, capacity)), SeedDict(TotalSeeds(inv, shelves, ITEMS)), inv, shelves,
               capacity);
    SeedsPlain(inv, shelves, shelves, capacity, ITEMS);
    SeedsAreOld(Seeds(inv, shelves, capacity));
  }

  lemma {:induction false} SeedsPlain(inv: Inventory, part: seq<string>, shelves: seq<string>, capacity: nat,
                                      items: seq<string>)
    ensures forall r <- ShelfSeeds(inv, part, capacity) + TotalSeeds(inv, shelves, items) :: Plain(r.fact)
    decreases |part| + |items|
  {
    if part != [] {
      SeedsPlain(inv, part[..|part|-1], shelves, capacity, items);
    } else if items != [] {
      SeedsPlain(inv, part, shelves, capacity, items[..|items|-1]);
    }
  }

  /** What the initial operations make of the empty domain. */
  lemma InitialDomain(inv: Inventory, shelves: seq<string>, capacity: nat)
    requires shelves != []
    ensures ApplyFrame.DomainOnly(InitialOps(inv, shelves, capacity))
    ensures ApplyFrame.EditAll(map[], InitialOps(inv, shelves, capacity))
         == Ok(map["capacity" := Num(capacity), TOOL := Obj(SeedDict(Seeds(inv, shelves, capacity)))])
  {
    var d := map["capacity" := Num(capacity)];
    var first := SetPath(["capacity"], Num(capacity));
    assert ApplyFrame.EditAll(map[], [first]) == Ok(d) by {
      assert [first][..0] == [];
    }
    var seeds := Seeds(inv, shelves, capacity);
    assert seeds != [];
    SeedOpsApply(d, TOOL, seeds);
    LedgerProofs.EditAllAppend(map[], [first], SeedOps(TOOL, seeds));
    assert Ledger.Entries(d, TOOL) + SeedDict(seeds) == SeedDict(seeds);
    assert LedgerProofs.WithLedger(d, TOOL, SeedDict(seeds))
        == map["capacity" := Num(capacity), TOOL := Obj(SeedDict(seeds))];
  }

  // ---- the scripted policy ----

  predicate IsTotal(key: string) {
    |key| >= 6 && key[..6] == "total_"
  }

  function FreeOf(entry: Json): int {
    NumAt(Bare(entry), ["free"])
  }

  function HeldOf(entry: Json, item: string): int {
    NumAt(Bare(entry), ["holds", item])
  }

  /** What the policy takes for a fitting shelf, from the ledger entry alone. */
  predicate LooksFit(entry: Json, o: Order) {
    match o
    case Store(_, qty) => FreeOf(entry) >= qty
    case Ship(item, qty) => HeldOf(entry, item) >= qty
    case Count(_) => true
  }

  function FirstFit(names: seq<string>, entries: Dict, o: Order): (r: Option<string>)
    requires forall s <- names :: s in entries
    ensures r.Some? ==> r.value in names && LooksFit(entries[r.value], o)
    ensures r.None? ==> forall s <- names :: !LooksFit(entries[s], o)
  {
    if names == [] then None
    else if LooksFit(entries[names[0]], o) then Some(names[0])
    else
      assert names == [names[0]] + names[1..];
      FirstFit(names[1..], entries, o)
  }

  function ShelfKeys(entries: Dict): set<string> {
    set k <- entries | !IsTotal(k)
  }

  /** The answer to an order: the first shelf in alphabetical order that fits, or the known total. None stands for the
      exception of a search that finds nothing. */
  function Script(entries: Dict, o: Order): Option<Call> {
    match o
    case Store(item, qty) =>
      (match FirstFit(Lex.SortedSet(ShelfKeys(entries)), entries, o)
       case None => None
       case Some(s) => Some(Call(StoreIt, Some(s), Some(item), Some(qty), None)))
    case Ship(item, qty) =>
      (match FirstFit(Lex.SortedSet(ShelfKeys(entries)), entries, o)
       case None => None
       case Some(s) => Some(Call(ShipIt, Some(s), Some(item), Some(qty), None)))
    case Count(item) => Some(Call(CountIt, None, None, None, Some(LedgerTotal(entries, item))))
  }

  lemma PlainIsNotTotal(s: string)
    requires PlainName(s)
    ensures !IsTotal(s)
  {}

  lemma TotalIsTotal(x: string)
    ensures IsTotal(TotalKey(x))
  {
    assert TotalKey(x)[..6] == "total_";
  }

  /** The ledger's shelf entries are the shelves. */
  lemma ShelfKeysAreShelves(entries: Dict, inv: Inventory, shelves: seq<string>, capacity: nat)
    requires Agrees(entries, inv, shelves, capacity) && Sound(inv, shelves, capacity) && PlainNames(shelves)
    ensures ShelfKeys(entries) == inv.Keys
  {
    hide ITEMS, PlainName, Bare, ShelfFact, TotalKey, SoundShelf;
    forall k | k in ShelfKeys(entries) ensures k in inv {
      if k !in shelves {
        var x :| x in ITEMS && TotalKey(x) == k;
        TotalIsTotal(x);
      }
    }
    forall s | s in inv ensures s in ShelfKeys(entries) {
      assert s in shelves && ShelfAgrees(entries, inv, capacity, s);
      PlainIsNotTotal(s);
    }
  }

  lemma LooksFitIsFits(entries: Dict, inv: Inventory, capacity: nat, shelf: string, o: Order)
    requires shelf in inv && ShelfAgrees(entries, inv, capacity, shelf) && Used(inv[shelf]) <= capacity
    requires (o.Ship? ==> o.qty > 0)
    ensures LooksFit(entries[shelf], o) <==> Fits(inv, capacity, o, shelf)
  {
    hide Used;
    if o.Ship? {
      HeldIsGot(inv[shelf], capacity, o.item);
    }
  }

  lemma HeldIsGot(m: Holds, capacity: nat, item: string)
    ensures NumAt(ShelfFact(m, capacity), ["holds", item]) == Get(m, item)
  {
    var d := ShelfFact(m, capacity);
    assert ["holds", item][1..] == [item];
    assert Lookup(d, ["holds", item]) == Lookup(HoldsJson(m), [item]);
  }

  /** The search through the ledger finds a shelf, and it fits. */
  lemma SearchFinds(entries: Dict, inv: Inventory, shelves: seq<string>, capacity: nat, o: Order)
    requires Agrees(entries, inv, shelves, capacity) && Sound(inv, shelves, capacity) && PlainNames(shelves)
    requires Feasible(inv, shelves, capacity, o) && !o.Count? && (o.Ship? ==> o.qty > 0)
    ensures var found := FirstFit(Lex.SortedSet(ShelfKeys(entries)), entries, o);
      found.Some? && Fits(inv, capacity, o, found.value)
  {
    hide ITEMS, Bare, ShelfFact, TotalKey, PlainName, LooksFit, Fits, TotalOn, LedgerTotal, FirstFit;
    ShelfKeysAreShelves(entries, inv, shelves, capacity);
    forall s | s in inv ensures LooksFit(entries[s], o) <==> Fits(inv, capacity, o, s) {
      assert ShelfAgrees(entries, inv, capacity, s) && SoundShelf(inv[s], capacity);
      LooksFitIsFits(entries, inv, capacity, s, o);
    }
    var s :| s in shelves && Fits(inv, capacity, o, s);
    assert s in Lex.SortedSet(ShelfKeys(entries));
  }

  /** On an agreeing ledger the policy answers a feasible order, and answers it correctly. */
  lemma ScriptIsCorrect(entries: Dict, inv: Inventory, shelves: seq<string>, capacity: nat, o: Order)
    requires Agrees(entries, inv, shelves, capacity) && Sound(inv, shelves, capacity) && PlainNames(shelves)
    requires Sensible(o) && Feasible(inv, shelves, capacity, o) && (o.Ship? ==> o.qty > 0)
    ensures Script(entries, o).Some? && Correct(inv, shelves, capacity, o, Script(entries, o).value)
    ensures !Script(entries, o).value.verb.InspectIt?
  {
    hide Agrees, Sound, PlainNames, Feasible, FirstFit, Fits, Lex.SortedSet, ShelfKeys, LedgerTotal, TotalOn, ITEMS;
    if o.Count? {
      TotalKnown(entries, inv, shelves, capacity, o.item);
    } else {
      SearchFinds(entries, inv, shelves, capacity, o);
    }
  }

  lemma TotalKnown(entries: Dict, inv: Inventory, shelves: seq<string>, capacity: nat, item: string)
    requires Agrees(entries, inv, shelves, capacity) && item in ITEMS
    ensures LedgerTotal(entries, item) == TotalOn(inv, shelves, item)
  {
    hide ITEMS;
  }

  // ---- the closed loop ----

  /** Ledger, world and score sheet between two orders. */
  datatype Moment = Moment(entries: Dict, inv: Inventory, log: seq<bool>)

  /** One order: the policy reads the ledger, the world responds, the ledger follows. */
  ghost predicate Turn(m: Moment, n: Moment, shelves: seq<string>, capacity: nat, o: Order, event: string, step: nat,
                       cap: nat) {
    var call := Script(m.entries, o);
    && call.Some?
    && var ok := Correct(m.inv, shelves, capacity, o, call.value);
       && n.inv == World(m.inv, shelves, capacity, o, call.value) && n.log == m.log + [ok]
       && LedgerTurn(m.entries, n.entries, Facts(n.inv, shelves, capacity, call.value, ok), event, step, cap)
  }

  ghost predicate AllGood(m: Moment, shelves: seq<string>, capacity: nat, totals: Holds, step: nat) {
    && Agrees(m.entries, m.inv, shelves, capacity) && Sound(m.inv, shelves, capacity) && Tallied(m.inv, shelves, totals)
    && LedgerProofs.OlderThan(m.entries, step) && (forall ok <- m.log :: ok)
  }

  /** One turn from a good moment: the policy answers correctly and the next moment is good. */
  lemma TurnStaysGood(m: Moment, n: Moment, shelves: seq<string>, capacity: nat, totals: Holds, room: nat, d: Draw,
                      event: string, step: nat, cap: nat)
    requires room == |shelves| * capacity
    requires AllGood(m, shelves, capacity, totals, step) && PlainNames(shelves)
    requires WideEnough(|shelves|, capacity) && |shelves| + |ITEMS| <= cap
    requires Legal(totals, room, d)
    requires Turn(m, n, shelves, capacity, OrderOf(totals, room, d), event, step, cap)
    ensures AllGood(n, shelves, capacity, Tally(totals, OrderOf(totals, room, d)), step + 1)
  {
    hide Agrees, Tallied, Legal, OrderOf, LedgerTurn, PlainNames, WideEnough, Script, Facts, ITEMS, Feasible, Sound,
      World, Correct, Tally,
      LedgerProofs.OlderThan;
    var o := OrderOf(totals, room, d);
    SensibleOrder(totals, room, d);
    NextFits(m.inv, shelves, capacity, totals, d);
    ShipsOne(totals, room, d);
    ScriptIsCorrect(m.entries, m.inv, shelves, capacity, o);
    var call := Script(m.entries, o).value;
    LedgerTracksTheWorld(m.entries, n.entries, m.inv, shelves, capacity, o, call, event, step, cap);
    WorldStaysGood(m.inv, shelves, capacity, totals, o, call);
  }

  lemma WorldStaysGood(inv: Inventory, shelves: seq<string>, capacity: nat, totals: Holds, o: Order, c: Call)
    requires Sound(inv, shelves, capacity) && Tallied(inv, shelves, totals) && Sensible(o)
    requires Correct(inv, shelves, capacity, o, c)
    requires o.Ship? ==> o.qty <= Get(totals, o.item)
    ensures Sound(World(inv, shelves, capacity, o, c), shelves, capacity)
    ensures Tallied(World(inv, shelves, capacity, o, c), shelves, Tally(totals, o))
  {
    if !o.Count? {
      CorrectFits(inv, shelves, capacity, o, c);
      FulfilKeepsSound(inv, shelves, capacity, o, c.shelf.value);
      TallyKept(inv, shelves, capacity, totals, o, c.shelf.value);
      hide Sound, Tallied, ITEMS;
    }
  }

  lemma CorrectFits(inv: Inventory, shelves: seq<string>, capacity: nat, o: Order, c: Call)
    requires Correct(inv, shelves, capacity, o, c) && !o.Count?
    ensures c.shelf.Some? && Fits(inv, capacity, o, c.shelf.value)
  {}

  /** The score is the share of correct answers; an empty sheet scores nothing. */
  function Score(log: seq<bool>): real {
    if log == [] then 0.0 else Hits(log) as real / |log| as real
  }

  function Hits(log: seq<bool>): nat {
    if log == [] then 0 else Hits(log[..|log|-1]) + if log[|log|-1] then 1 else 0
  }

  lemma {:induction false} AllHit(log: seq<bool>)
    ensures Hits(log) <= |log| && (Hits(log) == |log| <==> forall ok <- log :: ok)
    decreases |log|
  {
    if log != [] {
      var n := |log| - 1;
      AllHit(log[..n]);
      assert log == log[..n] + [log[n]];
      assert log[n] in log && forall ok <- log[..n] :: ok in log;
      assert forall ok <- log :: ok in log[..n] || ok == log[n];
    }
  }

  lemma FullScoreIff(log: seq<bool>)
    requires log != []
    ensures Score(log) == 1.0 <==> forall ok <- log :: ok
  {
    AllHit(log);
    var hits, all := Hits(log) as real, |log| as real;
    assert hits / all * all == hits;
  }

  /** A whole benchmark: from the stocked warehouse and its seeded ledger, one turn per order, at growing steps. */
  ghost predicate Benchmark(ms: seq<Moment>, inv: Inventory, shelves: seq<string>, capacity: nat, draws: seq<Draw>,
                            events: seq<string>, steps: seq<nat>, cap: nat)
    requires LegalAll(TotalsOf(inv, shelves), |shelves| * capacity, draws)
  {
    && 0 < |ms| <= |draws| + 1 && |events| == |steps| == |draws|
    && ms[0] == Moment(SeedDict(Seeds(inv, shelves, capacity)), inv, [])
    && (forall i, j :: 0 <= i < j < |steps| ==> steps[i] < steps[j])
    && forall i :: 0 <= i < |ms| - 1 ==>
         Turn(ms[i], ms[i+1], shelves, capacity, Orders(TotalsOf(inv, shelves), |shelves| * capacity, draws)[i],
              events[i], steps[i], cap)
  }

  lemma {:induction false} BenchmarkStaysGood(ms: seq<Moment>, inv: Inventory, shelves: seq<string>, capacity: nat,
                                              draws: seq<Draw>,
                                              events: seq<string>, steps: seq<nat>, cap: nat, n: nat)
    requires Sound(inv, shelves, capacity) && PlainNames(shelves) && WideEnough(|shelves|, capacity)
    requires |shelves| + |ITEMS| <= cap
    requires LegalAll(TotalsOf(inv, shelves), |shelves| * capacity, draws)
    requires Benchmark(ms, inv, shelves, capacity, draws, events, steps, cap) && n < |ms|
    ensures LegalAll(TotalsOf(inv, shelves), |shelves| * capacity, draws[..n]) && |ms[n].log| == n
    ensures AllGood(ms[n], shelves, capacity, TotalsAfter(TotalsOf(inv, shelves), |shelves| * capacity, draws[..n]),
                    if n == 0 then 0 else steps[n-1] + 1)
    decreases n
  {
    hide Sound, PlainNames, WideEnough, AllGood, Legal, OrderOf, ITEMS, Turn;
    var totals, room := TotalsOf(inv, shelves), |shelves| * capacity;
    if n == 0 {
      assert draws[..0] == [];
      StartIsGood(inv, shelves, capacity);
    } else {
      var k := n - 1;
      BenchmarkStaysGood(ms, inv, shelves, capacity, draws, events, steps, cap, k);
      OrderAt(totals, room, draws, k);
      var sums := TotalsAfter(totals, room, draws[..k]);
      LaterIsOlder(ms[k], shelves, capacity, sums, if k == 0 then 0 else steps[k-1] + 1, steps[k]);
      assert Turn(ms[k], ms[k+1], shelves, capacity, OrderOf(sums, room, draws[k]), events[k], steps[k], cap);
      TurnLog(ms[k], ms[n], shelves, capacity, OrderOf(sums, room, draws[k]), events[k], steps[k], cap);
      TurnStaysGood(ms[k], ms[n], shelves, capacity, sums, room, draws[k], events[k], steps[k], cap);
    }
  }

  lemma TurnLog(m: Moment, n: Moment, shelves: seq<string>, capacity: nat, o: Order, event: string, step: nat, cap: nat)
    requires Turn(m, n, shelves, capacity, o, event, step, cap)
    ensures |n.log| == |m.log| + 1
  {
    hide Script, Correct, World, LedgerTurn, Facts;
  }

  lemma StartIsGood(inv: Inventory, shelves: seq<string>, capacity: nat)
    requires Sound(inv, shelves, capacity) && PlainNames(shelves)
    ensures AllGood(Moment(SeedDict(Seeds(inv, shelves, capacity)), inv, []), shelves, capacity,
                    TotalsOf(inv, shelves), 0)
  {
    InitialLedgerAgrees(inv, shelves, capacity);
    hide Agrees, Seeds, SeedDict, PlainNames, LedgerProofs.OlderThan, ITEMS;
  }

  lemma LaterIsOlder(m: Moment, shelves: seq<string>, capacity: nat, totals: Holds, step: nat, later: nat)
    requires AllGood(m, shelves, capacity, totals, step) && step <= later
    ensures AllGood(m, shelves, capacity, totals, later)
  {
    hide Agrees, Sound, Tallied;
  }

  /** The scripted policy is never at a loss and always right: whatever the generator draws for a wide enough
      warehouse whose shelves and totals fit under the ledger's cap, the next order is answered correctly after any
      number of turns, and the score of a finished benchmark is 1. */
  lemma ScriptIsPerfect(ms: seq<Moment>, inv: Inventory, shelves: seq<string>, capacity: nat, draws: seq<Draw>,
                        events: seq<string>, steps: seq<nat>, cap: nat)
    requires Sound(inv, shelves, capacity) && PlainNames(shelves) && WideEnough(|shelves|, capacity)
    requires |shelves| + |ITEMS| <= cap
    requires LegalAll(TotalsOf(inv, shelves), |shelves| * capacity, draws)
    requires Benchmark(ms, inv, shelves, capacity, draws, events, steps, cap)
    ensures var last := ms[|ms|-1]; var n := |ms| - 1;
      && |last.log| == n
      && (n < |draws| ==>
            var o := Orders(TotalsOf(inv, shelves), |shelves| * capacity, draws)[n];
            Script(last.entries, o).Some? && Correct(last.inv, shelves, capacity, o, Script(last.entries, o).value))
      && (n > 0 ==> Score(last.log) == 1.0)
  {
    hide *;
    var n := |ms| - 1;
    BenchmarkSize(ms, inv, shelves, capacity, draws, events, steps, cap);
    BenchmarkStaysGood(ms, inv, shelves, capacity, draws, events, steps, cap, n);
    var totals, room := TotalsOf(inv, shelves), |shelves| * capacity;
    var sums := TotalsAfter(totals, room, draws[..n]);
    GoodParts(ms[n], shelves, capacity, sums, if n == 0 then 0 else steps[n-1] + 1);
    if n > 0 {
      FullScoreIff(ms[n].log);
    }
    if n < |draws| {
      OrderAt(totals, room, draws, n);
      SensibleOrder(sums, room, draws[n]);
      NextFits(ms[n].inv, shelves, capacity, sums, draws[n]);
      ShipsOne(sums, room, draws[n]);
      ScriptIsCorrect(ms[n].entries, ms[n].inv, shelves, capacity, OrderOf(sums, room, draws[n]));
    }
  }

  lemma BenchmarkSize(ms: seq<Moment>, inv: Inventory, shelves: seq<string>, capacity: nat, draws: seq<Draw>,
                      events: seq<string>, steps: seq<nat>, cap: nat)
    requires LegalAll(TotalsOf(inv, shelves), |shelves| * capacity, draws)
    requires Benchmark(ms, inv, shelves, capacity, draws, events, steps, cap)
    ensures 0 < |ms| <= |draws| + 1 && |steps| == |draws|
  {}

  lemma GoodParts(m: Moment, shelves: seq<string>, capacity: nat, totals: Holds, step: nat)
    requires AllGood(m, shelves, capacity, totals, step)
    ensures Agrees(m.entries, m.inv, shelves, capacity) && Sound(m.inv, shelves, capacity)
    ensures Tallied(m.inv, shelves, totals)
    ensures forall ok <- m.log :: ok
  {}
}
