/** The predict route (predict_api_route in app.py): the 400 decision on the
    upload, the resolution of the classifier's outcome into a category label,
    and the success response built from the suggestion generator. */
module Prediction {
  import opened Labels
  import opened Catalog
  import opened Suggestion

  /** What the classifier call produced: no model was loaded at start-up, the
      inference raised, or the arg-max of the scores was index `i`. */
  datatype Outcome = Absent | Failed | Index(i: int)

  /** The label the route starts from; every path overwrites it. */
  const UnknownLabel: string := "Không xác định"
  /** The label given for a predicted index outside the label list. */
  const IndexErrorLabel: string := "Danh mục không xác định (lỗi index)"
  /** The label `random.choice` is guarded by, for an empty label list. */
  const FallbackLabel: string := "Fallback Category"

  /** The random fallback draw: the label at the drawn index `pick` when the
      list is non-empty, and the fixed fallback label when it is empty. */
  function RandomChoice(labels: seq<string>, pick: nat): (chosen: string)
    requires labels != [] ==> pick < |labels|
    ensures labels != [] ==> chosen in labels
    ensures labels == [] ==> chosen == FallbackLabel
  {
    if labels != [] then labels[pick] else FallbackLabel
  }

  /** The category label the route hands to the generator. */
  function ResolveCategory(outcome: Outcome, pick: nat): (category: string)
    requires pick < |Classes|
    ensures outcome.Index? && 0 <= outcome.i < |Classes| ==> category == Classes[outcome.i]
    ensures category == IndexErrorLabel <==> outcome.Index? && !(0 <= outcome.i < |Classes|)
    ensures category != IndexErrorLabel ==> category in Classes
    ensures !outcome.Index? ==> category == Classes[pick]
  {
    IndexErrorLabelIsNotAClass();
    match outcome
    case Absent => RandomChoice(Classes, pick)
    case Failed => RandomChoice(Classes, pick)
    case Index(i) => if 0 <= i < |Classes| then Classes[i] else IndexErrorLabel
  }

  /** The error-index label cannot be confused with a real class. */
  lemma IndexErrorLabelIsNotAClass()
    ensures IndexErrorLabel !in Classes
    ensures UnknownLabel !in Classes
  {
  }

  /** Every class index is reached by some outcome, and no outcome yields the
      initial placeholder label. */
  lemma ResolutionIsOnto(category: string, pick: nat)
    requires pick < |Classes|
    ensures category in Classes ==> exists i :: 0 <= i < |Classes| && ResolveCategory(Index(i), pick) == category
    ensures forall o: Outcome :: ResolveCategory(o, pick) != UnknownLabel
  {
    IndexErrorLabelIsNotAClass();
    if category in Classes {
      var i :| 0 <= i < |Classes| && Classes[i] == category;
      assert ResolveCategory(Index(i), pick) == category;
    }
  }

  /** An out-of-range prediction falls through to the default outfit. */
  lemma IndexErrorGetsDefaultOutfit(coin: bool)
    ensures GroupOf(IndexErrorLabel) == Other
    ensures Outfit(IndexErrorLabel, coin) == [ItemFor(Tops), ItemFor(Bottoms), ItemFor(Shoes)]
  {
  }

  /** How the uploaded `image` field fared before classification: absent,
      reading it raised (with the exception's text), decoding failed, or it
      was decoded into the classifier's input. */
  datatype Upload = Missing | ReadFailed(reason: string) | Undecodable | Decoded

  /** The route's JSON reply: a 400 with an error message, or a 200 with the
      category, the suggestion sentence and the items. */
  datatype Response =
    | Error400(error: string)
    | Ok(inputItemCategory: string, suggestionText: string, suggestedOutfit: seq<Item>)

  const MissingImageMessage: string := "Không tìm thấy file ảnh tải lên."
  const UndecodableMessage: string := "Không thể xử lý ảnh đầu vào."
  const ReadErrorPrefix: string := "Lỗi khi đọc hoặc xử lý file ảnh: "

  /** The whole request: client input errors become a 400; once the image is
      decoded every model failure is absorbed and the reply is a 200. */
  method PredictApiRoute(upload: Upload, outcome: Outcome, pick: nat, coin: bool) returns (response: Response)
    requires pick < |Classes|
    ensures response.Error400? <==> !upload.Decoded?
    ensures upload.Missing? ==> response == Error400(MissingImageMessage)
    ensures upload.ReadFailed? ==> response == Error400(ReadErrorPrefix + upload.reason)
    ensures upload.Undecodable? ==> response == Error400(UndecodableMessage)
    ensures upload.Decoded? ==>
      var category := ResolveCategory(outcome, pick);
      response == Ok(category, SuggestionText(category), Outfit(category, coin))
    ensures response.Ok? ==>
      && (response.inputItemCategory in Classes || response.inputItemCategory == IndexErrorLabel)
      && Contains(response.suggestionText, response.inputItemCategory)
      && |response.suggestedOutfit| <= MaxItems
      && forall k :: 0 <= k < |response.suggestedOutfit| ==> FromCatalog(response.suggestedOutfit[k])
    ensures response.Ok? && !outcome.Index? ==> response.inputItemCategory in Classes
  {
    if upload.Missing? {
      return Error400(MissingImageMessage);
    }
    if upload.ReadFailed? {
      return Error400(ReadErrorPrefix + upload.reason);
    }
    if upload.Undecodable? {
      return Error400(UndecodableMessage);
    }
    var classifiedCategory := UnknownLabel;
    match outcome {
      case Index(i) =>
        if 0 <= i < |Classes| {
          classifiedCategory := Classes[i];
        } else {
          classifiedCategory := IndexErrorLabel;
        }
      case Failed =>
        classifiedCategory := RandomChoice(Classes, pick);
      case Absent =>
        classifiedCategory := RandomChoice(Classes, pick);
    }
    var suggestionText, suggestedOutfitItems := GenerateFullOutfitSuggestion(classifiedCategory, coin);
    response := Ok(classifiedCategory, suggestionText, suggestedOutfitItems);
  }
}
