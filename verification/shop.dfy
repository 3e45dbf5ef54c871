/** `GildedRose`: the shop as an ordered sequence of items, the one-day
    update over all of them, and its iteration over many days. */
module Shop {
  import opened Items
  import opened Rules
  import opened Factory

  /** One day for the whole shop: every item, in order, runs its own rule
      exactly once; nothing is added, dropped or reordered. */
  function UpdateShop(items: seq<Item>): (r: seq<Item>)
    ensures |r| == |items|
    ensures forall i :: 0 <= i < |items| ==> r[i] == Update(items[i])
  {
    if |items| == 0 then [] else [Update(items[0])] + UpdateShop(items[1..])
  }

  /** `GildedRose::update_quality`, as the loop over the items it is. */
  method UpdateQuality(items: seq<Item>) returns (r: seq<Item>)
    ensures |r| == |items|
    ensures forall i :: 0 <= i < |items| ==> r[i] == Update(items[i])
    ensures r == UpdateShop(items)
  {
    r := items;
    var i := 0;
    while i < |r|
      invariant 0 <= i <= |r| == |items|
      invariant forall j :: 0 <= j < i ==> r[j] == Update(items[j])
      invariant forall j :: i <= j < |r| ==> r[j] == items[j]
    {
      r := r[i := Update(r[i])];
      i := i + 1;
    }
  }

  /** One item after `n` days. */
  function Days(it: Item, n: nat): (r: Item)
    ensures r.name == it.name && r.policy == it.policy
    ensures it.policy.IsFrozen() ==> r == it
    ensures !it.policy.IsFrozen() ==> r.sellIn == it.sellIn - n
    ensures Valid(it) ==> Valid(r)
    decreases n
  {
    if n == 0 then it else Days(Update(it), n - 1)
  }

  /** The whole shop after `n` days. */
  function ShopAfter(items: seq<Item>, n: nat): (r: seq<Item>)
    ensures |r| == |items|
    ensures forall i :: 0 <= i < |items| ==> r[i] == Days(items[i], n)
    decreases n
  {
    if n == 0 then items else ShopAfter(UpdateShop(items), n - 1)
  }

  /** Day `n + 1` is one more update of day `n`. */
  lemma {:induction false} DaysSucc(it: Item, n: nat)
    ensures Days(it, n + 1) == Update(Days(it, n))
    decreases n
  {
    if n > 0 {
      DaysSucc(Update(it), n - 1);
    }
  }

  /** The driver loop with the number of days as a parameter: `days` calls of
      `update_quality`. */
  method Simulate(items: seq<Item>, days: nat) returns (r: seq<Item>)
    ensures |r| == |items|
    ensures forall i :: 0 <= i < |items| ==> r[i] == Days(items[i], days)
    ensures r == ShopAfter(items, days)
  {
    r := items;
    var d := 0;
    while d < days
      invariant 0 <= d <= days
      invariant |r| == |items|
      invariant forall i :: 0 <= i < |items| ==> r[i] == Days(items[i], d)
    {
      r := UpdateQuality(r);
      forall i | 0 <= i < |items|
        ensures r[i] == Days(items[i], d + 1)
      {
        DaysSucc(items[i], d);
      }
      d := d + 1;
    }
    var expected := ShopAfter(items, days);
    assert forall i :: 0 <= i < |items| ==> r[i] == expected[i];
  }

  predicate AllValid(items: seq<Item>) {
    forall i :: 0 <= i < |items| ==> Valid(items[i])
  }

  /** No number of days pushes a non-legendary item's quality out of
      [0, 50], and legendary items never change at all. */
  lemma ShopStaysValid(items: seq<Item>, n: nat)
    requires AllValid(items)
    ensures AllValid(ShopAfter(items, n))
    ensures forall i :: 0 <= i < |items| && items[i].policy.IsFrozen() ==>
              ShopAfter(items, n)[i] == items[i]
  {
  }

  /** Aged Brie never loses quality, however many days pass. */
  lemma {:induction false} AgedBrieNeverLoses(it: Item, n: nat)
    requires it.policy == AgedBrie
    ensures Days(it, n).quality >= it.quality
    decreases n
  {
    if n > 0 {
      AgedBrieNeverLoses(Update(it), n - 1);
    }
  }

  /** Standard and conjured items never gain quality, and never fall below
      zero from a non-negative start. */
  lemma {:induction false} DegradingNeverGains(it: Item, n: nat)
    requires it.policy == Standard || it.policy == Conjured
    ensures Days(it, n).quality <= it.quality
    ensures 0 <= it.quality ==> 0 <= Days(it, n).quality
    decreases n
  {
    if n > 0 {
      ConjuredIsStandard(it);
      DegradingNeverGains(Update(it), n - 1);
    }
  }

  /** How many single quality steps a degrading or maturing rule attempts
      over `n` days starting with `sellIn` days left: one a day while the
      item is still in date, two a day once it is not. */
  function Ticks(sellIn: int, n: nat): (t: nat)
    ensures n <= t <= 2 * n
  {
    var inDate := Min(n, Max(sellIn, 0));
    2 * n - inDate
  }

  lemma TicksSucc(sellIn: int, n: nat)
    requires 0 < n
    ensures Ticks(sellIn, n) == (if sellIn > 0 then 1 else 2) + Ticks(sellIn - 1, n - 1)
  {
  }

  /** Closed form of a standard or conjured item after `n` days: its
      quality loses one point per attempted step, floored at 0. */
  lemma {:induction false} DegradingAfterDays(it: Item, n: nat)
    requires it.policy == Standard || it.policy == Conjured
    requires 0 <= it.quality
    ensures Days(it, n).sellIn == it.sellIn - n
    ensures Days(it, n).quality == Max(0, it.quality - Ticks(it.sellIn, n))
    decreases n
  {
    if n > 0 {
      ConjuredIsStandard(it);
      TicksSucc(it.sellIn, n);
      DegradingAfterDays(Update(it), n - 1);
    }
  }

  /** Closed form of Aged Brie after `n` days: its quality gains one point
      per attempted step, capped at 50. */
  lemma {:induction false} AgedBrieAfterDays(it: Item, n: nat)
    requires it.policy == AgedBrie
    requires it.quality <= MaxQuality
    ensures Days(it, n).sellIn == it.sellIn - n
    ensures Days(it, n).quality == Min(MaxQuality, it.quality + Ticks(it.sellIn, n))
    decreases n
  {
    if n > 0 {
      TicksSucc(it.sellIn, n);
      AgedBrieAfterDays(Update(it), n - 1);
    }
  }

  /** A backstage pass kept past its concert is worthless: after `n` days
      with fewer than `n` days left at the start, its quality is 0. */
  lemma BackstageWorthlessAfterConcert(it: Item, n: nat)
    requires it.policy == Backstage
    requires 0 < n && it.sellIn < n
    ensures Days(it, n).quality == 0
  {
    DaysSucc(it, n - 1);
  }

  /** The nine-item catalogue of the driver and of the multi-day test. It
      starts valid, and exactly its two Sulfuras entries are frozen. */
  function Catalogue(): (c: seq<Item>)
    ensures |c| == 9
    ensures AllValid(c)
    ensures forall i :: 0 <= i < |c| ==>
              (c[i].policy.IsFrozen() <==> c[i].name == "Sulfuras, Hand of Ragnaros")
  {
    [ CreateDexterityVest(10, 20),
      CreateAgedBrie(2, 0),
      CreateElixirOfTheMongoose(5, 7),
      CreateSulfuras(0, 80),
      CreateSulfuras(-1, 80),
      CreateBackstagePasses(15, 20),
      CreateBackstagePasses(10, 49),
      CreateBackstagePasses(5, 49),
      CreateConjuredManaCake(3, 6) ]
  }

  /** The degrading items of the catalogue are worn down to quality 0 from
      day 30 on. */
  lemma DegradingCatalogueExhausted(n: nat)
    requires n >= 30
    ensures Days(CreateDexterityVest(10, 20), n) == Item("+5 Dexterity Vest", 10 - n, 0, Standard)
    ensures Days(CreateElixirOfTheMongoose(5, 7), n) ==
              Item("Elixir of the Mongoose", 5 - n, 0, Standard)
    ensures Days(CreateConjuredManaCake(3, 6), n) == Item("Conjured Mana Cake", 3 - n, 0, Conjured)
  {
    DegradingAfterDays(CreateDexterityVest(10, 20), n);
    DegradingAfterDays(CreateElixirOfTheMongoose(5, 7), n);
    DegradingAfterDays(CreateConjuredManaCake(3, 6), n);
  }

  /** The Aged Brie of the catalogue sits at the cap of 50 from day 30 on. */
  lemma AgedBrieCatalogueCapped(n: nat)
    requires n >= 30
    ensures Days(CreateAgedBrie(2, 0), n) == Item("Aged Brie", 2 - n, 50, AgedBrie)
  {
    AgedBrieAfterDays(CreateAgedBrie(2, 0), n);
  }

  /** The three backstage passes of the catalogue are past their concert,
      hence worthless, from day 30 on. */
  lemma BackstageCatalogueWorthless(n: nat)
    requires n >= 30
    ensures Days(CreateBackstagePasses(15, 20), n) ==
              Item("Backstage passes to a TAFKAL80ETC concert", 15 - n, 0, Backstage)
    ensures Days(CreateBackstagePasses(10, 49), n) ==
              Item("Backstage passes to a TAFKAL80ETC concert", 10 - n, 0, Backstage)
    ensures Days(CreateBackstagePasses(5, 49), n) ==
              Item("Backstage passes to a TAFKAL80ETC concert", 5 - n, 0, Backstage)
  {
    BackstageWorthlessAfterConcert(CreateBackstagePasses(15, 20), n);
    BackstageWorthlessAfterConcert(CreateBackstagePasses(10, 49), n);
    BackstageWorthlessAfterConcert(CreateBackstagePasses(5, 49), n);
  }

  /** A shop evolves item by item: knowing each item after `n` days is
      knowing the shop after `n` days. */
  lemma ShopAfterFromDays(items: seq<Item>, n: nat, expected: seq<Item>)
    requires |expected| == |items|
    requires forall i :: 0 <= i < |items| ==> Days(items[i], n) == expected[i]
    ensures ShopAfter(items, n) == expected
  {
  }

  /** The whole catalogue from day 30 on. */
  lemma CatalogueSettled(n: nat)
    requires n >= 30
    ensures ShopAfter(Catalogue(), n) ==
      [ Item("+5 Dexterity Vest", 10 - n, 0, Standard),
        Item("Aged Brie", 2 - n, 50, AgedBrie),
        Item("Elixir of the Mongoose", 5 - n, 0, Standard),
        Item("Sulfuras, Hand of Ragnaros", 0, 80, Legendary),
        Item("Sulfuras, Hand of Ragnaros", -1, 80, Legendary),
        Item("Backstage passes to a TAFKAL80ETC concert", 15 - n, 0, Backstage),
        Item("Backstage passes to a TAFKAL80ETC concert", 10 - n, 0, Backstage),
        Item("Backstage passes to a TAFKAL80ETC concert", 5 - n, 0, Backstage),
        Item("Conjured Mana Cake", 3 - n, 0, Conjured) ]
  {
    DegradingCatalogueExhausted(n);
    AgedBrieCatalogueCapped(n);
    BackstageCatalogueWorthless(n);
    ShopAfterFromDays(Catalogue(), n,
      [ Item("+5 Dexterity Vest", 10 - n, 0, Standard),
        Item("Aged Brie", 2 - n, 50, AgedBrie),
        Item("Elixir of the Mongoose", 5 - n, 0, Standard),
        Item("Sulfuras, Hand of Ragnaros", 0, 80, Legendary),
        Item("Sulfuras, Hand of Ragnaros", -1, 80, Legendary),
        Item("Backstage passes to a TAFKAL80ETC concert", 15 - n, 0, Backstage),
        Item("Backstage passes to a TAFKAL80ETC concert", 10 - n, 0, Backstage),
        Item("Backstage passes to a TAFKAL80ETC concert", 5 - n, 0, Backstage),
        Item("Conjured Mana Cake", 3 - n, 0, Conjured) ]);
  }

  /** The state of the catalogue after 30 updates, as the multi-day test
      asserts it. */
  lemma CatalogueAfterThirtyDays()
    ensures ShopAfter(Catalogue(), 30) ==
      [ Item("+5 Dexterity Vest", -20, 0, Standard),
        Item("Aged Brie", -28, 50, AgedBrie),
        Item("Elixir of the Mongoose", -25, 0, Standard),
        Item("Sulfuras, Hand of Ragnaros", 0, 80, Legendary),
        Item("Sulfuras, Hand of Ragnaros", -1, 80, Legendary),
        Item("Backstage passes to a TAFKAL80ETC concert", -15, 0, Backstage),
        Item("Backstage passes to a TAFKAL80ETC concert", -20, 0, Backstage),
        Item("Backstage passes to a TAFKAL80ETC concert", -25, 0, Backstage),
        Item("Conjured Mana Cake", -27, 0, Conjured) ]
  {
    CatalogueSettled(30);
  }

  /** The single-item unit tests: each item is built by the factory, put
      alone in a shop, and the shop is updated once. */
  lemma SingleItemTests()
    ensures UpdateShop([CreateDexterityVest(10, 20)]) ==
              [Item("+5 Dexterity Vest", 9, 19, Standard)]
    ensures UpdateShop([CreateAgedBrie(2, 0)]) == [Item("Aged Brie", 1, 1, AgedBrie)]
    ensures UpdateShop([CreateElixirOfTheMongoose(5, 7)]) ==
              [Item("Elixir of the Mongoose", 4, 6, Standard)]
    ensures UpdateShop([CreateSulfuras(0, 80)]) ==
              [Item("Sulfuras, Hand of Ragnaros", 0, 80, Legendary)]
    ensures UpdateShop([CreateSulfuras(-1, 80)]) ==
              [Item("Sulfuras, Hand of Ragnaros", -1, 80, Legendary)]
    ensures UpdateShop([CreateBackstagePasses(15, 20)]) ==
              [Item("Backstage passes to a TAFKAL80ETC concert", 14, 21, Backstage)]
    ensures UpdateShop([CreateBackstagePasses(10, 49)]) ==
              [Item("Backstage passes to a TAFKAL80ETC concert", 9, 50, Backstage)]
    ensures UpdateShop([CreateBackstagePasses(5, 49)]) ==
              [Item("Backstage passes to a TAFKAL80ETC concert", 4, 50, Backstage)]
    ensures UpdateShop([CreateConjuredManaCake(3, 6)]) ==
              [Item("Conjured Mana Cake", 2, 5, Conjured)]
  {
  }
}
