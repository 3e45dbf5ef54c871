/** The inventory record of the Gilded Rose shop and its three primitive
    mutators. The update rule an item is bound to at construction is kept as a
    closed `Policy` tag instead of a function pointer or a strategy object. */
module Items {

  /** Upper bound that every guarded quality increment respects. */
  const MaxQuality: int := 50

  /** The update rules of the function-pointer stage, one tag per role the
      closures play. `Standard` covers the Dexterity Vest and the Elixir of
      the Mongoose; `Legendary` is Sulfuras; `Empty` is the do-nothing rule the
      unit tests bind to their scratch items, the same closure as Sulfuras. */
  datatype Policy = Standard | AgedBrie | Legendary | Backstage | Conjured | Empty
  {
    /** Rules that never touch `sellIn` or `quality`. */
    predicate IsFrozen() {
      Legendary? || Empty?
    }
  }

  /** One stock-keeping unit. `sellIn` is the number of days left to sell it
      (negative once expired); `quality` is its value. */
  datatype Item = Item(name: string, sellIn: int, quality: int, policy: Policy)

  /** The bound the rules keep: frozen items are exempt, every other item
      has a quality in [0, 50]. */
  predicate Valid(it: Item) {
    it.policy.IsFrozen() || 0 <= it.quality <= MaxQuality
  }

  /** The fields other than `quality` are untouched. */
  predicate SameButQuality(a: Item, b: Item) {
    a.name == b.name && a.sellIn == b.sellIn && a.policy == b.policy
  }

  function DecrementQuality(it: Item): (r: Item)
    ensures SameButQuality(r, it)
    ensures r.quality + 1 == it.quality
  {
    it.(quality := it.quality - 1)
  }

  function IncrementQuality(it: Item): (r: Item)
    ensures SameButQuality(r, it)
    ensures r.quality == it.quality + 1
  {
    it.(quality := it.quality + 1)
  }

  function DecrementSellIn(it: Item): (r: Item)
    ensures r.name == it.name && r.quality == it.quality && r.policy == it.policy
    ensures r.sellIn + 1 == it.sellIn
  {
    it.(sellIn := it.sellIn - 1)
  }

  /** Incrementing and decrementing quality undo each other, in either order. */
  lemma QualityMutatorsInverse(it: Item)
    ensures DecrementQuality(IncrementQuality(it)) == it
    ensures IncrementQuality(DecrementQuality(it)) == it
  {
  }

  /** The three unit tests of the mutators on the scratch item (10, 20). */
  lemma MutatorExamples()
    ensures IncrementQuality(Item("asdf", 10, 20, Empty)).quality == 21
    ensures DecrementQuality(Item("asdf", 10, 20, Empty)).quality == 19
    ensures DecrementSellIn(Item("asdf", 10, 20, Empty)).sellIn == 9
  {
  }
}
