# Gilded Rose update-rule engine in Dafny

This project models the daily update engine of a Gilded Rose inventory. Each
item has a name, a `sell_in` (days left to sell it, negative once expired) and a
`quality`. Once a day the shop runs each item's own rule, in collection order. The
repository expresses the same rules in two refactoring stages, and both are
modelled:

- **Function-pointer stage** (`src/gildedrose.rs`). `ItemFactory` binds each
  catalogue item to a closure. `Item::update` calls that closure.
  `GildedRose::update_quality` updates every item.
- **Strategy-object stage** (`src/update_strategy.rs`). The strategy objects are
  `EmptyUpdate`, `DefaultUpdate`, `AgedBrieUpdate` and `BackstgeUpdate`.

Both dispatch mechanisms are replaced by closed datatypes:

- `Items.Policy` has one tag per role the closures play: Standard (vest and
  elixir), AgedBrie, Legendary (Sulfuras), Backstage, Conjured, and Empty (the
  do-nothing closure of the scratch test items). Legendary and Empty share
  the same `|_| {}` behaviour.
- `Strategies.UpdateStrategy` has one tag per strategy object.

Each rule is a pure function on an immutable `Item` and is written step by step
as the source writes it: guarded ±1 quality steps, one `sell_in` decrement, and one
post-expiry adjustment. The contract of each closure and of each strategy
object states its exact per-day change in closed form, case by case.

Modules:

- `Items` (items.dfy): the `Item` record, the bound policy, and the three
  primitive mutators.
- `Rules` (rules.dfy): the closures, `Step` (the dispatch) and `Update`
  (`Item::update`).
- `Factory` (factory.dfy): the six `ItemFactory::create_*` constructors.
- `Shop` (shop.dfy): `update_quality`, iteration over N days, closed forms for N
  days, and the nine-item catalogue after 30 days.
- `Strategies` (strategies.dfy): the strategy objects, and proofs that they
  compute exactly what the closures compute.

The Dexterity Vest closure (`src/gildedrose.rs:46-58`) and the Elixir of the
Mongoose closure (`src/gildedrose.rs:74-86`) behave identically (they differ only
in trailing semicolons), so both are modelled by `Rules.StandardRule`. The Conjured
Mana Cake closure (`src/gildedrose.rs:119-131`) has the same steps as well, but it
is the item the driver marks as not working properly yet (`src/main.rs:30`),
so it is kept as its own function (`Rules.ConjuredRule`).
`Rules.ConjuredIsStandard` proves that it degrades at exactly the standard rate,
not twice as fast as the usual statement of this exercise asks. The tests
assert the standard rate, so the model keeps that behaviour.

## Model

| member | source | states |
|---|---|---|
| Items.DecrementQuality | src/gildedrose.rs:27-29 | quality drops by exactly 1; name, sell_in and the bound rule are unchanged |
| Items.IncrementQuality | src/gildedrose.rs:31-33 | quality rises by exactly 1; name, sell_in and the bound rule are unchanged |
| Items.DecrementSellIn | src/gildedrose.rs:35-37 | sell_in drops by exactly 1; name, quality and the bound rule are unchanged |
| Items.QualityMutatorsInverse | src/gildedrose.rs:27-33 | incrementing and decrementing quality undo each other, in either order |
| Items.MutatorExamples | src/gildedrose.rs:161-185 | on (10, 20): increment gives quality 21, decrement gives quality 19, sell_in decrement gives 9 |
| Rules.StandardRule | src/gildedrose.rs:46-58 | sell_in drops by 1. Quality drops by 1 while in date, by 2 once sell_in ≤ 0, and never below 0. A quality ≤ 0 is left alone. Quality never rises. |
| Rules.AgedBrieRule | src/gildedrose.rs:60-72 | sell_in drops by 1. Quality rises by 1 while in date and by 2 once expired, capped at 50. Quality never falls. A start ≤ 50 stays ≤ 50. |
| Rules.KeepAsIs | src/gildedrose.rs:88-90 | the Sulfuras closure leaves sell_in and quality unchanged for every input, including sell_in = -1 |
| Rules.BackstageRule | src/gildedrose.rs:92-117 | sell_in drops by 1. Quality becomes 0 once the pre-update sell_in is ≤ 0. Otherwise quality gains 1, 2 or 3 by band of sell_in, capped at 50, and a quality already ≥ 50 is left alone. |
| Rules.ConjuredRule | src/gildedrose.rs:119-131 | sell_in drops by 1. Quality drops by 1 while in date, by 2 once sell_in ≤ 0 (to 0 from quality 1), and a quality ≤ 0 is left alone. Quality stays in [0, 50] when it starts there. |
| Rules.Step | src/gildedrose.rs:39-41 | running any rule keeps the name and the bound rule. Frozen rules are the identity. Every other rule drops sell_in by exactly 1 and keeps quality in [0, 50]. |
| Rules.Update | src/gildedrose.rs:39-41 | an item's own rule keeps the item valid (quality in [0, 50] unless legendary). The item keeps its sell_in exactly when its rule is frozen. |
| Rules.ConjuredIsStandard | src/gildedrose.rs:119-131 | the Conjured rule equals the Dexterity Vest rule on every item, so degradation is not doubled |
| Rules.BackstageDeltas | src/gildedrose.rs:97-115 | an in-date pass gains exactly +3, +2 or +1 when its sell_in is in [1,5], [6,10] or ≥ 11 and no cap is hit. Quality stays within [start, 50]. |
| Factory.CreateDexterityVest | src/gildedrose.rs:46-58 | the item is named "+5 Dexterity Vest", has the given sell_in and quality, and updates by the standard rule |
| Factory.CreateAgedBrie | src/gildedrose.rs:60-72 | the item is named "Aged Brie", has the given fields, and updates by the Aged Brie rule |
| Factory.CreateElixirOfTheMongoose | src/gildedrose.rs:74-86 | the item is named "Elixir of the Mongoose", has the given fields, and updates by the standard rule |
| Factory.CreateSulfuras | src/gildedrose.rs:88-90 | the item is named "Sulfuras, Hand of Ragnaros", has the given fields, and an update leaves it unchanged |
| Factory.CreateBackstagePasses | src/gildedrose.rs:92-117 | the item is named "Backstage passes to a TAFKAL80ETC concert", has the given fields, and updates by the backstage rule |
| Factory.CreateConjuredManaCake | src/gildedrose.rs:119-131 | the item is named "Conjured Mana Cake", has the given fields, and updates by the conjured rule |
| Shop.UpdateShop | src/gildedrose.rs:149-153 | one day keeps the item count and order, and each item is the result of running its own rule exactly once |
| Shop.UpdateQuality | src/gildedrose.rs:149-153 | the in-order loop over the items keeps their count and replaces each item by the result of its own rule, which is one shop day |
| Shop.Days | src/gildedrose.rs:309-311 | after n days an item keeps its name and rule. A frozen item is unchanged. Any other item has sell_in lowered by exactly n. Validity is preserved. |
| Shop.ShopAfter | src/gildedrose.rs:309-311 | after n shop days, item i of the shop is item i after n days on its own |
| Shop.DaysSucc | src/gildedrose.rs:309-311 | day n + 1 of an item is one more update of day n |
| Shop.Simulate | src/gildedrose.rs:308-311 | calling update_quality `days` times gives the shop after `days` days |
| Shop.ShopStaysValid | src/gildedrose.rs:149-153 | over any number of days, every non-legendary item keeps quality in [0, 50] and every legendary item is unchanged |
| Shop.AgedBrieNeverLoses | src/gildedrose.rs:60-72 | Aged Brie's quality after n days is at least its starting quality |
| Shop.DegradingNeverGains | src/gildedrose.rs:46-58 | a standard or conjured item's quality never rises over n days, and never goes negative from a non-negative start |
| Shop.DegradingAfterDays | src/gildedrose.rs:46-58 | closed form over n days: quality is the start minus one point per in-date day and two per expired day, floored at 0 |
| Shop.AgedBrieAfterDays | src/gildedrose.rs:60-72 | closed form over n days: quality is the start plus one point per in-date day and two per expired day, capped at 50 |
| Shop.BackstageWorthlessAfterConcert | src/gildedrose.rs:110-114 | a pass held for n ≥ 1 days, starting with fewer than n days left, is worth exactly 0 at the end |
| Shop.Catalogue | src/gildedrose.rs:297-307 | the nine items of the multi-day test, built by the factory. All start valid, and exactly the two Sulfuras entries are frozen. |
| Shop.SingleItemTests | src/gildedrose.rs:187-293 | every single-item unit test, run as the tests run it (factory item, one-item shop, one update), with the name kept: vest (10,20)→(9,19), Brie (2,0)→(1,1), elixir (5,7)→(4,6), Sulfuras (0,80) and (-1,80) fixed, passes (15,20)→(14,21), (10,49)→(9,50), (5,49)→(4,50), Conjured (3,6)→(2,5) |
| Shop.DegradingCatalogueExhausted | src/gildedrose.rs:313-338 | from day 30 on, the catalogue's vest, elixir and cake have quality 0 and sell_in lowered by the day count |
| Shop.AgedBrieCatalogueCapped | src/gildedrose.rs:316-317 | from day 30 on, the catalogue's Aged Brie sits at quality 50 |
| Shop.BackstageCatalogueWorthless | src/gildedrose.rs:328-335 | from day 30 on, the catalogue's three passes have quality 0 |
| Shop.ShopAfterFromDays | src/gildedrose.rs:149-153 | the shop after n days is fully determined by each item's own n-day history |
| Shop.CatalogueSettled | src/gildedrose.rs:295-339 | the whole nine-item catalogue in closed form for every day count ≥ 30 |
| Shop.CatalogueAfterThirtyDays | src/gildedrose.rs:295-339 | after 30 updates the catalogue is exactly as the multi-day test asserts, e.g. Brie (-28, 50) and Conjured (-27, 0) |
| Strategies.EmptyUpdateItem | src/update_strategy.rs:6-11 | the item is left completely unchanged |
| Strategies.DefaultUpdateItem | src/update_strategy.rs:13-26 | sell_in drops by 1. Quality drops by 1 while in date, by 2 once sell_in ≤ 0 (to 0 from quality 1), and a quality ≤ 0 is left alone, so it never turns negative. [0, 50] is preserved. |
| Strategies.AgedBrieUpdateItem | src/update_strategy.rs:28-41 | sell_in drops by 1. Quality rises by 1 while in date and by 2 once expired, capped at 50; a quality ≥ 50 is left alone. A start ≤ 50 stays ≤ 50. |
| Strategies.BackstgeUpdateItem | src/update_strategy.rs:43-63 | sell_in drops by 1. Quality is exactly 0 once the decremented sell_in is < 0. Otherwise quality gains 1, 2 or 3 by band, capped at 50, and a quality ≥ 50 is left alone. [0, 50] is preserved. |
| Strategies.UpdateItem | src/update_strategy.rs:2-4 | no strategy changes the item's name. Only `EmptyUpdate` leaves sell_in alone, and it leaves the whole item alone. |
| Strategies.StagesAgree | src/update_strategy.rs:13-63 | for every rule and every item, the strategy object gives exactly the closure's result |
| Strategies.StrategiesMatchClosures | src/update_strategy.rs:6-63 | `EmptyUpdate` equals the do-nothing closure of Sulfuras, `DefaultUpdate` equals the vest/elixir and conjured closures, and Aged Brie and backstage each equal their closure |

## Left out

- `src/main.rs` (the console driver loop and its printing) is not modelled. It
  is I/O, and its `Item::new` call passes a boxed strategy that the `Item::new`
  of `src/gildedrose.rs:13-25` does not accept. `Shop.Simulate` takes the number of days as a
  parameter in place of its fixed loop.
- `impl Display for Item` (`src/gildedrose.rs:134-138`) only formats an item
  for printing.
- The dispatch mechanisms themselves: `fn` pointers stored in the item
  (`src/gildedrose.rs:3, 9, 39-41`) and the `UpdateStrategy` trait object.
  They are replaced by the `Policy` and `UpdateStrategy` datatypes with one
  dispatch function each. The driver (`src/main.rs:7-31`) binds every
  catalogue item to `EmptyUpdate`, which would leave every item unchanged.
  `Strategies.StrategyFor` departs from that on purpose: it pairs each closure
  with the strategy object that behaves like it, which is the pairing the
  equivalence lemmas are about.
- The files do not build together as shown: `src/main.rs:3` imports
  `EmptyUpdate` from `gildedrose`, which does not define it, and `src/main.rs`
  never declares `mod update_strategy`. Both stages share the one `Item` of
  `src/gildedrose.rs:5-10`, as `src/update_strategy.rs:1` does, modelled as
  `Items.Item`.
- `sell_in` and `quality` are `i32` in the source; the model uses unbounded
  integers. No `sell_in` or `quality` step outside the i32 range is modelled:
  `decrement_sell_in` from `i32::MIN`, or the quality mutators at the i32
  limits. Debug builds panic there and release builds wrap.
- Names are carried as opaque strings. No rule is selected by name.
