/** The per-item update rules of the function-pointer stage (the closures
    `ItemFactory` binds to each item) and the single dispatch function that
    replaces calling through the stored pointer. Every rule is written as the
    closure is: guarded one-step quality changes, one `sellIn` decrement, and
    one post-expiry adjustment checked against the decremented `sellIn`. */
module Rules {
  import opened Items

  function Min(a: int, b: int): int {
    if a <= b then a else b
  }

  function Max(a: int, b: int): int {
    if a <= b then b else a
  }

  /** How many guarded increments a backstage pass attempts on a day that
      starts with `sellIn` days left: one always, one more below 11 days, one
      more below 6 days. */
  function Bonus(sellIn: int): (b: int)
    ensures 1 <= b <= 3
  {
    if sellIn < 6 then 3 else if sellIn < 11 then 2 else 1
  }

  /** The Dexterity Vest and Elixir of the Mongoose closure. */
  function StandardRule(it: Item): (r: Item)
    ensures r.name == it.name && r.policy == it.policy
    ensures r.sellIn == it.sellIn - 1
    ensures it.quality <= 0 ==> r.quality == it.quality
    ensures it.quality >= 1 && it.sellIn > 0 ==> r.quality == it.quality - 1
    ensures it.quality >= 2 && it.sellIn <= 0 ==> r.quality == it.quality - 2
    ensures it.quality == 1 && it.sellIn <= 0 ==> r.quality == 0
    ensures r.quality <= it.quality
    ensures 0 <= it.quality ==> 0 <= r.quality
  {
    var a := if it.quality > 0 then DecrementQuality(it) else it;
    var b := DecrementSellIn(a);
    if b.sellIn < 0 && b.quality > 0 then DecrementQuality(b) else b
  }

  /** The Aged Brie closure: quality rises instead of falling. */
  function AgedBrieRule(it: Item): (r: Item)
    ensures r.name == it.name && r.policy == it.policy
    ensures r.sellIn == it.sellIn - 1
    ensures it.quality >= MaxQuality ==> r.quality == it.quality
    ensures it.quality < MaxQuality && it.sellIn > 0 ==> r.quality == it.quality + 1
    ensures it.quality < MaxQuality - 1 && it.sellIn <= 0 ==> r.quality == it.quality + 2
    ensures it.quality == MaxQuality - 1 && it.sellIn <= 0 ==> r.quality == MaxQuality
    ensures r.quality >= it.quality
    ensures it.quality <= MaxQuality ==> r.quality <= MaxQuality
  {
    var a := if it.quality < MaxQuality then IncrementQuality(it) else it;
    var b := DecrementSellIn(a);
    if b.sellIn < 0 && b.quality < MaxQuality then IncrementQuality(b) else b
  }

  /** The closure that ignores its argument: bound to Sulfuras, and to the
      scratch items of the mutator unit tests. */
  function KeepAsIs(it: Item): (r: Item)
    ensures r.sellIn == it.sellIn && r.quality == it.quality
    ensures r.name == it.name && r.policy == it.policy
  {
    it
  }

  /** The backstage-pass closure. The three increments test the `sellIn`
      the day starts with; expiry then wipes the quality out. */
  function BackstageRule(it: Item): (r: Item)
    ensures r.name == it.name && r.policy == it.policy
    ensures r.sellIn == it.sellIn - 1
    ensures it.sellIn <= 0 ==> r.quality == 0
    ensures it.sellIn > 0 && it.quality >= MaxQuality ==> r.quality == it.quality
    ensures it.sellIn > 0 && it.quality < MaxQuality ==>
              r.quality == Min(it.quality + Bonus(it.sellIn), MaxQuality)
  {
    var a := if it.quality < MaxQuality then IncrementQuality(it) else it;
    var b := if a.quality < MaxQuality && a.sellIn < 11 then IncrementQuality(a) else a;
    var c := if b.quality < MaxQuality && b.sellIn < 6 then IncrementQuality(b) else b;
    var d := DecrementSellIn(c);
    if d.sellIn < 0 then d.(quality := 0) else d
  }

  /** The Conjured Mana Cake closure. It is its own closure in the factory,
      with the same steps as the Elixir of the Mongoose one, so it degrades
      at the standard rate rather than twice as fast. */
  function ConjuredRule(it: Item): (r: Item)
    ensures r.name == it.name && r.policy == it.policy
    ensures r.sellIn == it.sellIn - 1
    ensures it.quality <= 0 ==> r.quality == it.quality
    ensures it.quality >= 1 && it.sellIn > 0 ==> r.quality == it.quality - 1
    ensures it.quality >= 2 && it.sellIn <= 0 ==> r.quality == it.quality - 2
    ensures it.quality == 1 && it.sellIn <= 0 ==> r.quality == 0
    ensures 0 <= it.quality <= MaxQuality ==> 0 <= r.quality <= MaxQuality
  {
    var a := if it.quality > 0 then DecrementQuality(it) else it;
    var b := DecrementSellIn(a);
    if b.sellIn < 0 && b.quality > 0 then DecrementQuality(b) else b
  }

  /** Applies the rule that `p` stands for to `it`: the call through the
      item's stored function pointer. */
  function Step(p: Policy, it: Item): (r: Item)
    ensures r.name == it.name && r.policy == it.policy
    ensures p.IsFrozen() ==> r == it
    ensures !p.IsFrozen() ==> r.sellIn == it.sellIn - 1
    ensures !p.IsFrozen() && 0 <= it.quality <= MaxQuality ==>
              0 <= r.quality <= MaxQuality
  {
    match p
    case Standard => StandardRule(it)
    case AgedBrie => AgedBrieRule(it)
    case Legendary => KeepAsIs(it)
    case Backstage => BackstageRule(it)
    case Conjured => ConjuredRule(it)
    case Empty => KeepAsIs(it)
  }

  /** `Item::update`: the item runs the rule it was bound to. */
  function Update(it: Item): (r: Item)
    ensures r.name == it.name && r.policy == it.policy
    ensures Valid(it) ==> Valid(r)
    ensures it.policy.IsFrozen() ==> r == it
    ensures it.policy.IsFrozen() <==> r.sellIn == it.sellIn
  {
    Step(it.policy, it)
  }

  /** The Conjured Mana Cake degrades at exactly the rate of the standard
      items: its rule agrees with the Dexterity Vest rule on every item. */
  lemma ConjuredIsStandard(it: Item)
    ensures ConjuredRule(it) == StandardRule(it)
    ensures Step(Conjured, it) == Step(Standard, it)
  {
  }

  /** The per-day quality gains of a backstage pass, by band of the
      `sellIn` the day starts with, when no cap is reached. */
  lemma BackstageDeltas(it: Item)
    ensures 1 <= it.sellIn <= 5 && it.quality <= MaxQuality - 3 ==>
              BackstageRule(it).quality == it.quality + 3
    ensures 6 <= it.sellIn <= 10 && it.quality <= MaxQuality - 2 ==>
              BackstageRule(it).quality == it.quality + 2
    ensures 11 <= it.sellIn && it.quality <= MaxQuality - 1 ==>
              BackstageRule(it).quality == it.quality + 1
    ensures it.sellIn > 0 && 0 <= it.quality <= MaxQuality ==>
              it.quality <= BackstageRule(it).quality <= MaxQuality
  {
  }
}
