/** `ItemFactory`: one constructor per catalogue item, each binding the item
    to its update rule once and for all. */
module Factory {
  import opened Items
  import opened Rules

  function CreateDexterityVest(sellIn: int, quality: int): (r: Item)
    ensures r.name == "+5 Dexterity Vest" && r.sellIn == sellIn && r.quality == quality
    ensures Update(r) == StandardRule(r)
  {
    Item("+5 Dexterity Vest", sellIn, quality, Standard)
  }

  function CreateAgedBrie(sellIn: int, quality: int): (r: Item)
    ensures r.name == "Aged Brie" && r.sellIn == sellIn && r.quality == quality
    ensures Update(r) == AgedBrieRule(r)
  {
    Item("Aged Brie", sellIn, quality, AgedBrie)
  }

  function CreateElixirOfTheMongoose(sellIn: int, quality: int): (r: Item)
    ensures r.name == "Elixir of the Mongoose" && r.sellIn == sellIn && r.quality == quality
    ensures Update(r) == StandardRule(r)
  {
    Item("Elixir of the Mongoose", sellIn, quality, Standard)
  }

  function CreateSulfuras(sellIn: int, quality: int): (r: Item)
    ensures r.name == "Sulfuras, Hand of Ragnaros" && r.sellIn == sellIn && r.quality == quality
    ensures Update(r) == r
  {
    Item("Sulfuras, Hand of Ragnaros", sellIn, quality, Legendary)
  }

  function CreateBackstagePasses(sellIn: int, quality: int): (r: Item)
    ensures r.name == "Backstage passes to a TAFKAL80ETC concert"
    ensures r.sellIn == sellIn && r.quality == quality
    ensures Update(r) == BackstageRule(r)
  {
    Item("Backstage passes to a TAFKAL80ETC concert", sellIn, quality, Backstage)
  }

  function CreateConjuredManaCake(sellIn: int, quality: int): (r: Item)
    ensures r.name == "Conjured Mana Cake" && r.sellIn == sellIn && r.quality == quality
    ensures Update(r) == ConjuredRule(r)
  {
    Item("Conjured Mana Cake", sellIn, quality, Conjured)
  }
}
