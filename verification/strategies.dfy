/** The strategy-object stage: the same rules as `UpdateStrategy`
    implementations, and their agreement with the function-pointer stage. */
module Strategies {
  import opened Items
  import opened Rules

  /** The four `UpdateStrategy` implementations, as a closed set. */
  datatype UpdateStrategy = EmptyUpdate | DefaultUpdate | AgedBrieUpdate | BackstgeUpdate

  /** `EmptyUpdate::update_item`: leaves the item as it is. */
  function EmptyUpdateItem(it: Item): (r: Item)
    ensures r.name == it.name && r.sellIn == it.sellIn
    ensures r.quality == it.quality && r.policy == it.policy
  {
    it
  }

  /** `DefaultUpdate::update_item`: both quality decrements are guarded by a
      positive quality. */
  function DefaultUpdateItem(it: Item): (r: Item)
    ensures r.name == it.name && r.policy == it.policy
    ensures r.sellIn == it.sellIn - 1
    ensures it.quality <= 0 ==> r.quality == it.quality
    ensures it.quality >= 1 && it.sellIn > 0 ==> r.quality == it.quality - 1
    ensures it.quality >= 2 && it.sellIn <= 0 ==> r.quality == it.quality - 2
    ensures it.quality == 1 && it.sellIn <= 0 ==> r.quality == 0
    ensures 0 <= it.quality <= MaxQuality ==> 0 <= r.quality <= MaxQuality
  {
    var a := if it.quality > 0 then DecrementQuality(it) else it;
    var b := DecrementSellIn(a);
    if b.sellIn < 0 && b.quality > 0 then DecrementQuality(b) else b
  }

  /** `AgedBrieUpdate::update_item`. */
  function AgedBrieUpdateItem(it: Item): (r: Item)
    ensures r.name == it.name && r.policy == it.policy
    ensures r.sellIn == it.sellIn - 1
    ensures it.quality >= MaxQuality ==> r.quality == it.quality
    ensures it.quality < MaxQuality && it.sellIn > 0 ==> r.quality == it.quality + 1
    ensures it.quality < MaxQuality - 1 && it.sellIn <= 0 ==> r.quality == it.quality + 2
    ensures it.quality == MaxQuality - 1 && it.sellIn <= 0 ==> r.quality == MaxQuality
    ensures it.quality <= MaxQuality ==> r.quality <= MaxQuality
  {
    var a := if it.quality < MaxQuality then IncrementQuality(it) else it;
    var b := DecrementSellIn(a);
    if b.sellIn < 0 && b.quality < MaxQuality then IncrementQuality(b) else b
  }

  /** `BackstgeUpdate::update_item`. */
  function BackstgeUpdateItem(it: Item): (r: Item)
    ensures r.name == it.name && r.policy == it.policy
    ensures r.sellIn == it.sellIn - 1
    ensures r.sellIn < 0 ==> r.quality == 0
    ensures r.sellIn >= 0 && it.quality >= MaxQuality ==> r.quality == it.quality
    ensures r.sellIn >= 0 && it.quality < MaxQuality ==>
              r.quality == Min(it.quality + Bonus(it.sellIn), MaxQuality)
    ensures 0 <= it.quality <= MaxQuality ==> 0 <= r.quality <= MaxQuality
  {
    var a := if it.quality < MaxQuality then IncrementQuality(it) else it;
    var b := if a.quality < MaxQuality && a.sellIn < 11 then IncrementQuality(a) else a;
    var c := if b.quality < MaxQuality && b.sellIn < 6 then IncrementQuality(b) else b;
    var d := DecrementSellIn(c);
    if d.sellIn < 0 then d.(quality := 0) else d
  }

  /** Calling `update_item` on the strategy object `s`. No strategy touches
      the item's name. */
  function UpdateItem(s: UpdateStrategy, it: Item): (r: Item)
    ensures r.name == it.name && r.policy == it.policy
    ensures s.EmptyUpdate? ==> r == it
    ensures s.EmptyUpdate? <==> r.sellIn == it.sellIn
  {
    match s
    case EmptyUpdate => EmptyUpdateItem(it)
    case DefaultUpdate => DefaultUpdateItem(it)
    case AgedBrieUpdate => AgedBrieUpdateItem(it)
    case BackstgeUpdate => BackstgeUpdateItem(it)
  }

  /** The strategy object that plays the part of each function-pointer
      rule: both degrading items share `DefaultUpdate`, and Sulfuras as well
      as the do-nothing rule share `EmptyUpdate`. The driver in `src/main.rs`
      binds every item to `EmptyUpdate`; this pairing departs from it on
      purpose, so that each item keeps the behaviour its closure gives it. */
  function StrategyFor(p: Policy): (s: UpdateStrategy)
    ensures s.EmptyUpdate? <==> p.IsFrozen()
  {
    match p
    case Standard => DefaultUpdate
    case Conjured => DefaultUpdate
    case AgedBrie => AgedBrieUpdate
    case Backstage => BackstgeUpdate
    case Legendary => EmptyUpdate
    case Empty => EmptyUpdate
  }

  /** The two refactoring stages agree: for every rule and every item, the
      strategy object computes exactly what the closure computes. */
  lemma StagesAgree(p: Policy, it: Item)
    ensures UpdateItem(StrategyFor(p), it) == Step(p, it)
  {
  }

  /** Clause by clause, the agreement of each strategy with the closures it
      replaces. */
  lemma StrategiesMatchClosures(it: Item)
    ensures EmptyUpdateItem(it) == KeepAsIs(it)
    ensures DefaultUpdateItem(it) == StandardRule(it) == ConjuredRule(it)
    ensures AgedBrieUpdateItem(it) == AgedBrieRule(it)
    ensures BackstgeUpdateItem(it) == BackstageRule(it)
  {
  }
}
