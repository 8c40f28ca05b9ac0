# Outfit suggestion service — Dafny model

A model of the decision logic of a small image-to-outfit HTTP service
(`app.py`). A POST to `/api/predict` carries an image. The service classifies
the garment into one of 17 fixed category labels. It then returns a sentence
and up to three placeholder outfit items, taken from a five-row table and
chosen by which group the category belongs to.

The model covers:

- the label set `CLASSES` (module `Labels`, `labels.dfy`);
- the placeholder item table `mock_db` and the item records built from it
  (module `Catalog`, `catalog.dfy`);
- the suggestion generator `generate_full_outfit_suggestion` (module
  `Suggestion`, `suggestion.dfy`). It is an imperative method. It builds the
  list by successive appends and then cuts it to three items. It is proved
  equal to a reference definition: a table keyed by the four label groups
  (`Template`, `Outfit`, `SuggestionText`). The lemmas state what each group
  gets;
- the predict route `predict_api_route` (module `Prediction`,
  `prediction.dfy`). It makes a 400 decision on the upload. It resolves the
  classifier outcome into a category label, then builds the 200 reply.

Abstractions:

- The coin flip `random.random() > 0.5` is a `coin: bool` parameter.
- `random.choice(CLASSES)` is a `pick` index with `pick < |Classes|`. That is
  what `random.choice` guarantees of the index it draws.
- The classifier call is an `Outcome`: `Absent` (no model loaded), `Failed`
  (inference raised) or `Index(i)` (the arg-max index).
- Reading and decoding the upload is an `Upload`: `Missing`,
  `ReadFailed(reason)`, `Undecodable` or `Decoded`.

The fallthrough branch (app.py:103-106) also returns three items, Tops,
Bottoms and Shoes (`Suggestion.OtherOutfit`); only the upper-body branch
depends on the coin.

## Model

| member | source | states |
|---|---|---|
| `Labels.ClassesAreDistinct` | app.py:27-32 | the label list has 17 entries and no label occurs twice, so index and label determine each other |
| `Catalog.CatalogKinds` | app.py:82-88 | the item table has exactly the five kinds Tops, Bottoms, Shoes, Outerwear, Accessories |
| `Catalog.FromCatalogIffItemFor` | app.py:82-88 | a record counts as taken from the table exactly when it equals the table-built record of its own kind |
| `Suggestion.Truncate` | app.py:113 | Python's `[:3]` slice: the result is the first min(n, \|items\|) items, and equals the list exactly when the list has at most n items |
| `Suggestion.GenerateFullOutfitSuggestion` | app.py:50-113 | total over all strings; the sentence is the reference sentence and quotes the category; the items equal the group-table outfit; at most 3 items, each taken from the table and equal to the table record of its own kind |
| `Suggestion.OutfitBounded` | app.py:90-113 | every outfit has 2 or 3 items, all from the table, so the cut to three never drops an item |
| `Suggestion.OutfitKindsDistinct` | app.py:90-106 | no outfit holds two items of the same kind |
| `Suggestion.UpperBodyOutfit` | app.py:90-94 | for the four upper-body labels: Bottoms then Shoes, length 3 if the coin is true and 2 otherwise, the third being Outerwear |
| `Suggestion.OnePieceOutfit` | app.py:95-98 | for Dresses and Rompers & Jumpsuits: exactly [Shoes, Accessories] |
| `Suggestion.LowerBodyOutfit` | app.py:99-102 | for the five lower-body labels: exactly [Tops, Shoes] |
| `Suggestion.OtherOutfit` | app.py:103-106 | any string in none of the three lists: exactly [Tops, Bottoms, Shoes] |
| `Suggestion.CoinOnlyAddsOuterwear` | app.py:94 | the coin changes the outfit if and only if the label is upper-body, and then it only appends Outerwear |
| `Suggestion.TextContainsCategory` | app.py:70 | the suggestion sentence contains the category string verbatim |
| `Suggestion.GroupsPartitionClasses` | app.py:27-32 | the three label lists are disjoint subsets of the 17 classes, and each class's group is given by its index |
| `Suggestion.GroupSizes` | app.py:90-106 | taking the group of each of the 17 classes, 4 are upper-body, 2 one-piece, 5 lower-body and 6 other |
| `Prediction.RandomChoice` | app.py:156 | the fallback draw yields a member of a non-empty list, and "Fallback Category" for an empty one |
| `Prediction.ResolveCategory` | app.py:134-159 | an in-range index gives `Classes[i]`; the error-index label comes out exactly for out-of-range indices; every other result is one of the classes; an absent or failed model gives the drawn class; no path indexes out of range |
| `Prediction.IndexErrorLabelIsNotAClass` | app.py:131-152 | neither the error-index label nor the initial placeholder label is among the classes |
| `Prediction.ResolutionIsOnto` | app.py:131-159 | every class is reached by some in-range index, and no outcome returns the initial placeholder label |
| `Prediction.IndexErrorGetsDefaultOutfit` | app.py:103-106 | the error-index label falls through to the default [Tops, Bottoms, Shoes] outfit |
| `Prediction.PredictApiRoute` | app.py:116-173 | a 400 with the right message exactly when the upload is missing, unreadable or undecodable; otherwise always a 200 with the resolved category, its sentence and its outfit; the category is a class or the error-index label, and a class whenever the model was absent or failed |

## Left out

- Flask wiring, CORS, routing, `jsonify` and process start-up: web plumbing. The reply is the `Response` datatype.
- Loading the model with `tf.keras.models.load_model` and calling `predict`: foreign ML calls. They are the `Outcome` datatype.
- `np.argmax` over the float scores: floating point. The index it returns is `Index(i)`.
- Image decoding, resizing and pixel scaling (`preprocess_image_for_classification`): library calls on floats. Their success or failure is the `Upload` datatype.
- `random.random()` and `random.choice`: randomness. They are the `coin` and `pick` parameters.
- `print` logging: I/O.
- The unused `input_image_features` argument of the generator: it is always `None` and never read.
- The React front end (`main.jsx`): UI and networking, with no decision logic of its own.
