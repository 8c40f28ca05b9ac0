/** The classifier's label set: the fixed, ordered list of garment categories
    that a predicted class index is mapped into (CLASSES in app.py). */
module Labels {

  /** The 17 category labels, indexed 0..16 in the order the classifier emits them. */
  const Classes: seq<string> := [
    "Jackets & Vests", "Shirts & Polos", "Suiting", "Blouses & Shirts",
    "Cardigans", "Dresses", "Graphic Tees", "Jackets & Coats", "Leggings",
    "Rompers & Jumpsuits", "Skirts", "Denim", "Pants", "Shorts",
    "Sweaters", "Sweatshirts & Hoodies", "Tees & Tanks"
  ]

  /** The label list has 17 entries and no label appears twice, so a class
      index denotes exactly one label and each label exactly one index. */
  lemma ClassesAreDistinct()
    ensures |Classes| == 17
    ensures forall i, j :: 0 <= i < |Classes| && 0 <= j < |Classes| && Classes[i] == Classes[j] ==> i == j
  {
  }
}
