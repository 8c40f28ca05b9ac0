/** The outfit suggestion generator (generate_full_outfit_suggestion in app.py):
    from a category label to a suggestion sentence and at most three items of
    the placeholder table, chosen by which label group the category is in. */
module Suggestion {
  import opened Labels
  import opened Catalog

  /** The label lists tested, in this order, by the generator's if/elif chain. */
  const UpperBodyLabels: seq<string> := ["Tees & Tanks", "Graphic Tees", "Shirts & Polos", "Blouses & Shirts"]
  const OnePieceLabels: seq<string> := ["Dresses", "Rompers & Jumpsuits"]
  const LowerBodyLabels: seq<string> := ["Skirts", "Denim", "Pants", "Shorts", "Leggings"]

  /** The result list is cut to this many items. */
  const MaxItems: nat := 3

  /** The branch of the if/elif chain a category falls into. */
  datatype Group = UpperBody | OnePiece | LowerBody | Other

  function GroupOf(category: string): Group
  {
    if category in UpperBodyLabels then UpperBody
    else if category in OnePieceLabels then OnePiece
    else if category in LowerBodyLabels then LowerBody
    else Other
  }

  /** The outfit each group is given, as a table keyed by group; `coin` stands
      for the one random draw `random.random() > 0.5`. */
  function Template(g: Group, coin: bool): seq<Item>
  {
    match g
    case UpperBody => [ItemFor(Bottoms), ItemFor(Shoes)] + (if coin then [ItemFor(Outerwear)] else [])
    case OnePiece => [ItemFor(Shoes), ItemFor(Accessories)]
    case LowerBody => [ItemFor(Tops), ItemFor(Shoes)]
    case Other => [ItemFor(Tops), ItemFor(Bottoms), ItemFor(Shoes)]
  }

  /** Reference definition of the suggested items for a category. */
  function Outfit(category: string, coin: bool): seq<Item>
  {
    Template(GroupOf(category), coin)
  }

  const TextPrefix: string := "Với một item '"
  const TextSuffix: string := "', đây là một gợi ý phối đồ thú vị dành cho bạn:"

  /** Reference definition of the suggestion sentence for a category. */
  function SuggestionText(category: string): string
  {
    TextPrefix + category + TextSuffix
  }

  /** `part` occurs verbatim in `s`, starting at position `i`. */
  predicate OccursAt(s: string, part: string, i: int)
  {
    0 <= i <= |s| - |part| && s[i..i + |part|] == part
  }

  /** `part` occurs verbatim somewhere in `s`. */
  predicate Contains(s: string, part: string)
  {
    exists i :: 0 <= i <= |s| - |part| && OccursAt(s, part, i)
  }

  /** Python's `items[:n]`: the first `n` items, or all of them when there are fewer. */
  function Truncate(items: seq<Item>, n: nat): (r: seq<Item>)
    ensures |r| == if |items| <= n then |items| else n
    ensures r == items[..|r|]
    ensures |items| <= n <==> r == items
  {
    if |items| <= n then items else items[..n]
  }

  /** The generator: builds the item list by successive appends, then cuts it
      to `MaxItems`. Total over all strings. */
  method GenerateFullOutfitSuggestion(category: string, coin: bool) returns (text: string, items: seq<Item>)
    ensures text == SuggestionText(category) && Contains(text, category)
    ensures items == Outfit(category, coin)
    ensures |items| <= MaxItems
    ensures forall k :: 0 <= k < |items| ==> FromCatalog(items[k])
    ensures forall k :: 0 <= k < |items| ==> items[k].category in MockDb && items[k] == ItemFor(items[k].category)
  {
    text := "Với một item '" + category + "', đây là một gợi ý phối đồ thú vị dành cho bạn:";
    var outfitItems: seq<Item> := [];
    if category in ["Tees & Tanks", "Graphic Tees", "Shirts & Polos", "Blouses & Shirts"] {
      outfitItems := outfitItems + [ItemFor("Bottoms")];
      outfitItems := outfitItems + [ItemFor("Shoes")];
      if coin {
        outfitItems := outfitItems + [ItemFor("Outerwear")];
      }
    } else if category in ["Dresses", "Rompers & Jumpsuits"] {
      outfitItems := outfitItems + [ItemFor("Shoes")];
      outfitItems := outfitItems + [ItemFor("Accessories")];
    } else if category in ["Skirts", "Denim", "Pants", "Shorts", "Leggings"] {
      outfitItems := outfitItems + [ItemFor("Tops")];
      outfitItems := outfitItems + [ItemFor("Shoes")];
    } else {
      outfitItems := outfitItems + [ItemFor("Tops")];
      outfitItems := outfitItems + [ItemFor("Bottoms")];
      outfitItems := outfitItems + [ItemFor("Shoes")];
    }
    OutfitBounded(category, coin);
    items := Truncate(outfitItems, MaxItems);
    forall k | 0 <= k < |items|
      ensures items[k].category in MockDb && items[k] == ItemFor(items[k].category)
    {
      FromCatalogIffItemFor(items[k]);
    }
    TextContainsCategory(category);
  }

  // ---- Properties of the reference definitions ----

  /** Every outfit has two or three items, all taken from the table, so the
      final cut to three items never drops one. */
  lemma OutfitBounded(category: string, coin: bool)
    ensures 2 <= |Outfit(category, coin)| <= MaxItems
    ensures Truncate(Outfit(category, coin), MaxItems) == Outfit(category, coin)
    ensures forall k :: 0 <= k < |Outfit(category, coin)| ==> FromCatalog(Outfit(category, coin)[k])
  {
  }

  /** No outfit holds two items of the same kind. */
  lemma OutfitKindsDistinct(category: string, coin: bool)
    ensures forall j, k :: 0 <= j < k < |Outfit(category, coin)| ==>
      Outfit(category, coin)[j].category != Outfit(category, coin)[k].category
  {
  }

  /** Upper-body garments: Bottoms then Shoes, and a third Outerwear item
      exactly when the coin comes up. */
  lemma UpperBodyOutfit(category: string, coin: bool)
    requires category in UpperBodyLabels
    ensures var r := Outfit(category, coin);
      && |r| == (if coin then 3 else 2)
      && r[0] == ItemFor(Bottoms) && r[1] == ItemFor(Shoes)
      && (coin ==> r[2] == ItemFor(Outerwear))
  {
  }

  /** One-piece garments: exactly Shoes then Accessories. */
  lemma OnePieceOutfit(category: string, coin: bool)
    requires category in OnePieceLabels
    ensures Outfit(category, coin) == [ItemFor(Shoes), ItemFor(Accessories)]
  {
  }

  /** Lower-body garments: exactly Tops then Shoes. */
  lemma LowerBodyOutfit(category: string, coin: bool)
    requires category in LowerBodyLabels
    ensures Outfit(category, coin) == [ItemFor(Tops), ItemFor(Shoes)]
  {
  }

  /** Any other string, known label or not: exactly Tops, Bottoms, Shoes. */
  lemma OtherOutfit(category: string, coin: bool)
    requires category !in UpperBodyLabels && category !in OnePieceLabels && category !in LowerBodyLabels
    ensures Outfit(category, coin) == [ItemFor(Tops), ItemFor(Bottoms), ItemFor(Shoes)]
  {
  }

  /** The random draw matters for upper-body garments only, and there it
      decides exactly whether the Outerwear item is appended. */
  lemma CoinOnlyAddsOuterwear(category: string)
    ensures GroupOf(category) != UpperBody <==> Outfit(category, true) == Outfit(category, false)
    ensures GroupOf(category) == UpperBody ==> Outfit(category, true) == Outfit(category, false) + [ItemFor(Outerwear)]
  {
  }

  /** The suggestion sentence quotes the category verbatim. */
  lemma TextContainsCategory(category: string)
    ensures Contains(SuggestionText(category), category)
  {
    var s := SuggestionText(category);
    assert s[|TextPrefix|..|TextPrefix| + |category|] == category;
    assert OccursAt(s, category, |TextPrefix|);
  }

  /** The three label lists are disjoint and drawn from the 17 classes, and
      together with the fallthrough they split the classes 4 / 2 / 5 / 6:
      the group of each class, by its index. */
  lemma GroupsPartitionClasses()
    ensures forall c :: c in UpperBodyLabels ==> c in Classes && c !in OnePieceLabels && c !in LowerBodyLabels
    ensures forall c :: c in OnePieceLabels ==> c in Classes && c !in LowerBodyLabels
    ensures forall c :: c in LowerBodyLabels ==> c in Classes
    ensures |UpperBodyLabels| == 4 && |OnePieceLabels| == 2 && |LowerBodyLabels| == 5
    ensures |ClassGroups| == |Classes|
    ensures forall i :: 0 <= i < |Classes| ==> GroupOf(Classes[i]) == ClassGroups[i]
  {
  }

  /** The group of each class, in the classes' order. */
  function GroupsOfClasses(): (gs: seq<Group>)
    ensures |gs| == |Classes|
  {
    seq(|Classes|, i requires 0 <= i < |Classes| => GroupOf(Classes[i]))
  }

  /** The classes split 4 upper-body, 2 one-piece, 5 lower-body and 6 others. */
  lemma GroupSizes()
    ensures multiset(GroupsOfClasses())[UpperBody] == 4
    ensures multiset(GroupsOfClasses())[OnePiece] == 2
    ensures multiset(GroupsOfClasses())[LowerBody] == 5
    ensures multiset(GroupsOfClasses())[Other] == 6
  {
    ClassGroupsTable();
    ClassGroupsCounts();
  }

  /** The counts of each group in the `ClassGroups` table. */
  lemma ClassGroupsCounts()
    ensures multiset(ClassGroups)[UpperBody] == 4 && multiset(ClassGroups)[OnePiece] == 2
    ensures multiset(ClassGroups)[LowerBody] == 5 && multiset(ClassGroups)[Other] == 6
  {
  }

  /** `ClassGroups` lists the group of each class. */
  lemma ClassGroupsTable()
    ensures GroupsOfClasses() == ClassGroups
  {
    GroupsPartitionClasses();
  }

  /** The group of each of the 17 classes, in the classes' order. */
  const ClassGroups: seq<Group> := [
    Other, UpperBody, Other, UpperBody, Other, OnePiece, UpperBody, Other, LowerBody,
    OnePiece, LowerBody, LowerBody, LowerBody, LowerBody, Other, Other, UpperBody
  ]
}
