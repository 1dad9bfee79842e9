/**
 * What one analysis shows: the outcome of the inference call, classified
 * into one of five displays, and the result cards built for the detections
 * that pass the confidence filter.
 */
module Results {
  import opened Options
  import opened Advice
  import opened Predictions

  /**
   * The outcome of the remote inference call, as the analysis sees it: the
   * call raised an HTTP error (a non-success status), raised any other
   * exception, or returned a JSON body, which may or may not carry a
   * `predictions` entry.
   */
  datatype Response =
    | HttpError
    | OtherFailure
    | Body(predictions: Option<seq<Prediction>>)

  /** A result card: disease title, the raw class label, the confidence and the advice. */
  datatype Card = Card(title: string, classLabel: string, confidence: real, description: string)

  /** The five things an analysis can end up showing. */
  datatype Display =
    | ApiKeyError         // asks the user to create a new, valid API key
    | UnexpectedError     // generic "unexpected error during analysis"
    | NothingDetected     // the body had no predictions entry
    | NoneAboveThreshold  // predictions were present, none reached the threshold
    | Detected(cards: seq<Card>)

  /**
   * The card shown for one retained detection: its raw label and confidence,
   * with the title and advice looked up for the label, so the fallback title
   * appears exactly when the label is not curated.
   */
  function CardFor(p: Prediction): (card: Card)
    ensures card.classLabel == p.classLabel && card.confidence == p.confidence
    ensures card.title == Unknown.title <==> p.classLabel !in Curated
    ensures p.classLabel in Curated ==>
      card.title == Curated[p.classLabel].title && card.description == Curated[p.classLabel].description
    ensures p.classLabel !in Curated ==>
      card.title == Unknown.title && card.description == Unknown.description
  {
    var info := Lookup(p.classLabel);
    Card(info.title, p.classLabel, p.confidence, info.description)
  }

  /** The detections an analysis shows cards for, when the body carries predictions. */
  function Retained(response: Response): (kept: seq<Prediction>)
    requires response.Body? && response.predictions.Some?
  {
    FilterAbove(response.predictions.value, ConfidenceThreshold)
  }

  /**
   * The display for an inference outcome: each error gets its own message,
   * a body without predictions is "nothing detected", a body whose
   * predictions all fall below the threshold is the threshold message, and
   * otherwise there is one card per retained detection, in filter order.
   */
  function Classify(response: Response): (shown: Display)
    ensures shown == ApiKeyError <==> response.HttpError?
    ensures shown == UnexpectedError <==> response.OtherFailure?
    ensures shown == NothingDetected <==> response == Body(None)
    ensures shown == NoneAboveThreshold <==>
      response.Body? && response.predictions.Some? && Retained(response) == []
    ensures shown.Detected? ==>
      response.Body? && response.predictions.Some? &&
      |shown.cards| == |Retained(response)| > 0 &&
      forall i :: 0 <= i < |shown.cards| ==> shown.cards[i] == CardFor(Retained(response)[i])
  {
    match response
    case HttpError => ApiKeyError
    case OtherFailure => UnexpectedError
    case Body(None) => NothingDetected
    case Body(Some(ps)) =>
      var kept := FilterAbove(ps, ConfidenceThreshold);
      if kept == [] then NoneAboveThreshold
      else Detected(seq(|kept|, i requires 0 <= i < |kept| => CardFor(kept[i])))
  }

  /** The rendering loop: one card per retained detection, each with its lookup title and advice. */
  method RenderCards(kept: seq<Prediction>) returns (cards: seq<Card>)
    ensures |cards| == |kept|
    ensures forall i :: 0 <= i < |kept| ==>
      cards[i].title == Lookup(kept[i].classLabel).title &&
      cards[i].classLabel == kept[i].classLabel &&
      cards[i].confidence == kept[i].confidence &&
      cards[i].description == Lookup(kept[i].classLabel).description
  {
    cards := [];
    for i := 0 to |kept|
      invariant |cards| == i
      invariant forall j :: 0 <= j < i ==> cards[j] == CardFor(kept[j])
    {
      var prediction := kept[i];
      var info := Lookup(prediction.classLabel);
      cards := cards + [Card(info.title, prediction.classLabel, prediction.confidence, info.description)];
    }
  }

  /** The analysis step as the script runs it: branch on the outcome, filter, render. */
  method Analyze(response: Response) returns (shown: Display)
    ensures shown == Classify(response)
  {
    match response {
      case HttpError =>
        shown := ApiKeyError;
      case OtherFailure =>
        shown := UnexpectedError;
      case Body(None) =>
        shown := NothingDetected;
      case Body(Some(ps)) =>
        var kept := FilterAbove(ps, ConfidenceThreshold);
        if kept != [] {
          var cards := RenderCards(kept);
          assert cards == seq(|kept|, i requires 0 <= i < |kept| => CardFor(kept[i]));
          shown := Detected(cards);
        } else {
          shown := NoneAboveThreshold;
        }
    }
  }

  /** Neither kind of error produces a card. */
  lemma ErrorsShowNoCards(response: Response)
    requires response.HttpError? || response.OtherFailure?
    ensures !Classify(response).Detected?
    ensures response.HttpError? ==> Classify(response) == ApiKeyError
    ensures response.OtherFailure? ==> Classify(response) == UnexpectedError
  {
  }

  /** A body without a predictions entry is "nothing detected", not an error and not the threshold message. */
  lemma MissingPredictionsIsNothingDetected()
    ensures Classify(Body(None)) == NothingDetected
  {
  }

  /**
   * A body whose predictions all fall below the threshold, the empty list
   * included, shows the threshold message and no cards.
   */
  lemma NothingAboveThresholdShowsMessage(ps: seq<Prediction>)
    requires forall i :: 0 <= i < |ps| ==> ps[i].confidence < ConfidenceThreshold
    ensures Classify(Body(Some(ps))) == NoneAboveThreshold
  {
    FilterEmptyIff(ps, ConfidenceThreshold);
  }

  /**
   * Every card shown stands for a detection of the response that reached
   * 0.45, with that detection's label and confidence, and every such
   * detection has a card.
   */
  lemma CardsMatchConfidentDetections(ps: seq<Prediction>)
    requires Classify(Body(Some(ps))).Detected?
    ensures forall c :: c in Classify(Body(Some(ps))).cards ==>
      c.confidence >= 0.45 && Prediction(c.classLabel, c.confidence) in ps &&
      c.title == Lookup(c.classLabel).title
    ensures forall p :: p in ps && p.confidence >= 0.45 ==> CardFor(p) in Classify(Body(Some(ps))).cards
  {
  }

  /**
   * A response with a PHYPSO detection at 0.9 and a SOKADE detection at 0.2
   * shows exactly one card, the Phyllosticta leaf spot at 0.9.
   */
  lemma OneConfidentDetection()
    ensures Classify(Body(Some([Prediction("PHYPSO", 0.9), Prediction("SOKADE", 0.2)]))) ==
      Detected([Card("Yaprak Lekesi (Phyllosticta)", "PHYPSO", 0.9, Curated["PHYPSO"].description)])
  {
  }
}
