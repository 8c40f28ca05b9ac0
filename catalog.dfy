/** The static placeholder item table the outfit suggestions are drawn from
    (mock_db in app.py) and the outfit item record built from it. */
module Catalog {

  /** One row of the table: the display name and placeholder image of an item kind. */
  datatype Entry = Entry(name: string, imageUrl: string)

  /** An outfit item record as returned to the client: its kind plus the row's fields. */
  datatype Item = Item(category: string, name: string, imageUrl: string)

  const Tops: string := "Tops"
  const Bottoms: string := "Bottoms"
  const Shoes: string := "Shoes"
  const Outerwear: string := "Outerwear"
  const Accessories: string := "Accessories"

  /** The five-entry table, keyed by item kind. */
  const MockDb: map<string, Entry> := map[
    Tops := Entry("Áo Thun Basic Fit", "https://placehold.co/200x300/E2E8F0/AAAAAA?text=Áo+Thun+Fit"),
    Bottoms := Entry("Quần Jeans Ống Đứng", "https://placehold.co/200x300/A0AEC0/FFFFFF?text=Quần+Jean+Ống+Đứng"),
    Shoes := Entry("Giày Sneaker Cổ Điển", "https://placehold.co/200x300/CBD5E0/FFFFFF?text=Sneaker+Cổ+Điển"),
    Outerwear := Entry("Áo Khoác Bomber Kaki", "https://placehold.co/200x300/718096/FFFFFF?text=Áo+Khoác+Kaki"),
    Accessories := Entry("Mũ Lưỡi Trai Năng Động", "https://placehold.co/200x300/4A5568/FFFFFF?text=Mũ+Lưỡi+Trai")
  ]

  /** The item record of kind `key`: the kind together with that key's row of the table. */
  function ItemFor(key: string): Item
    requires key in MockDb
  {
    Item(key, MockDb[key].name, MockDb[key].imageUrl)
  }

  /** An item is taken from the table: its kind is a key and its other fields
      are that key's row. */
  predicate FromCatalog(it: Item)
  {
    it.category in MockDb && MockDb[it.category] == Entry(it.name, it.imageUrl)
  }

  /** The table has exactly the five item kinds of the taxonomy. */
  lemma CatalogKinds()
    ensures MockDb.Keys == {Tops, Bottoms, Shoes, Outerwear, Accessories}
    ensures |MockDb| == 5
  {
  }

  /** A record is built from the table exactly when it is `ItemFor` of its own
      kind: no item outside the table can pass as one of it. */
  lemma FromCatalogIffItemFor(it: Item)
    ensures FromCatalog(it) <==> it.category in MockDb && it == ItemFor(it.category)
  {
  }
}
