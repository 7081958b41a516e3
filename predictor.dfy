/**
 * The decision part of the Flask `/predict` handler: choosing the label with
 * the highest classifier score, looking up a localized remedy, and replacing
 * the process-wide last-prediction slot that `/download-report` reads.
 *
 * The classifier itself is not modelled: a request arrives here as the score
 * vector it produced, or as `None` when no usable image reached it.
 */
module Predictor {
  import opened Wrappers

  /** `class_names`: the label of each classifier output position. */
  const CLASS_NAMES: seq<string> := ["Apple Scab", "Corn Leaf Blight", "Grape Black Rot", "Healthy"]

  /** The language codes the remedy table is written in. */
  const LANGUAGES: set<string> := {"en", "hi", "te"}

  /** `remedies`: disease name, then language code, to remedy text. */
  const REMEDIES: map<string, map<string, string>> := map[
    "Apple Scab" := map[
      "en" := "Apply fungicides like captan or sulfur.",
      "hi" := "कैप्टन जैसे फफूंदनाशक का उपयोग करें।",
      "te" := "క్యాప్టాన్ వంటి ఫంగిసైడ్ వాడండి."],
    "Corn Leaf Blight" := map[
      "en" := "Use resistant hybrids and crop rotation.",
      "hi" := "प्रतिरोधी किस्मों का उपयोग करें।",
      "te" := "ప్రతిరోధక రకాలను వాడండి."],
    "Grape Black Rot" := map[
      "en" := "Prune infected areas and apply fungicide.",
      "hi" := "संक्रमित भागों को हटाएं।",
      "te" := "సంక్రమిత భాగాలను తొలగించండి."],
    "Healthy" := map[
      "en" := "Your plant is healthy.",
      "hi" := "आपका पौधा स्वस्थ है।",
      "te" := "మీ మొక్క ఆరోగ్యంగా ఉంది."]
  ]

  /** The JSON object the handler stores and returns. */
  datatype Prediction = Prediction(disease: string, confidence: real, remedy: string)

  /** Why a request fails; each is an exception the handler does not catch. */
  datatype PredictError =
    | ImageRejected                    // no "file" part, an undecodable image, or a classifier failure
    | EmptyScores                      // the maximum of an empty score array is undefined
    | LabelOutOfRange(index: nat)      // the winning position has no entry in CLASS_NAMES
    | UnsupportedLanguage(lang: string) // the remedy table has no text in that language

  /** `request.form.get("language", "en")`: only a missing field defaults. */
  function RequestLanguage(language: Option<string>): (lang: string)
    ensures language.None? ==> lang == "en"
    ensures language.Some? ==> lang == language.value
  {
    if language.None? then "en" else language.value
  }

  /** `i` is the position of a maximum score, and the first such position. */
  predicate IsFirstMax(scores: seq<real>, i: int) {
    && 0 <= i < |scores|
    && (forall j :: 0 <= j < |scores| ==> scores[j] <= scores[i])
    && (forall j :: 0 <= j < i ==> scores[j] < scores[i])
  }

  /** `np.argmax`: the lowest position holding the greatest score. */
  function ArgMax(scores: seq<real>): (i: nat)
    requires |scores| > 0
    ensures IsFirstMax(scores, i)
    decreases |scores|
  {
    if |scores| == 1 then 0
    else
      var i := ArgMax(scores[..|scores| - 1]);
      if scores[|scores| - 1] > scores[i] then |scores| - 1 else i
  }

  /** `np.max`: the greatest score. */
  function Max(scores: seq<real>): (m: real)
    requires |scores| > 0
    ensures m in scores
    ensures forall j :: 0 <= j < |scores| ==> scores[j] <= m
    decreases |scores|
  {
    if |scores| == 1 then scores[0]
    else
      var m := Max(scores[1..]);
      assert forall j :: 1 <= j < |scores| ==> scores[j] == scores[1..][j - 1];
      if scores[0] > m then scores[0] else m
  }

  /** `confidence * 100`, before rounding. */
  function Percent(score: real): (p: real)
    ensures 0.0 <= score ==> 0.0 <= p
    ensures score <= 1.0 ==> p <= 100.0
  {
    score * 100.0
  }

  /**
   * The value `predict` computes: the label at the first maximum, the maximum
   * score as a percentage, and the remedy for that label in the requested
   * language, or the first error that aborts the request.
   */
  function Resolve(classified: Option<seq<real>>, language: Option<string>): (r: Result<Prediction, PredictError>)
    ensures classified.None? ==> r == Failure(ImageRejected)
    ensures classified.Some? && classified.value == [] ==> r == Failure(EmptyScores)
    ensures classified.Some? && classified.value != [] && ArgMax(classified.value) >= |CLASS_NAMES| ==>
      r == Failure(LabelOutOfRange(ArgMax(classified.value)))
    ensures (classified.Some? && classified.value != [] && ArgMax(classified.value) < |CLASS_NAMES|
             && RequestLanguage(language) !in LANGUAGES) ==>
      r == Failure(UnsupportedLanguage(RequestLanguage(language)))
    ensures r.Success? <==>
      && classified.Some? && classified.value != []
      && ArgMax(classified.value) < |CLASS_NAMES|
      && RequestLanguage(language) in LANGUAGES
    ensures r.Success? ==> forall i :: IsFirstMax(classified.value, i) ==>
      && r.value.disease == CLASS_NAMES[i]
      && r.value.confidence == Percent(classified.value[i])
      && r.value.remedy == REMEDIES[CLASS_NAMES[i]][RequestLanguage(language)]
  {
    if classified.None? then Failure(ImageRejected)
    else
      var scores := classified.value;
      if scores == [] then Failure(EmptyScores)
      else
        var lang := RequestLanguage(language);
        var confidence := Percent(Max(scores));
        var i := ArgMax(scores);
        if i >= |CLASS_NAMES| then Failure(LabelOutOfRange(i))
        else
          var disease := CLASS_NAMES[i];
          RemedyTableComplete();
          if lang !in REMEDIES[disease] then Failure(UnsupportedLanguage(lang))
          else
            FirstMaxUnique(scores, i);
            Success(Prediction(disease, confidence, REMEDIES[disease][lang]))
  }

  /** There is only one first maximum, and Max is the score found there. */
  lemma FirstMaxUnique(scores: seq<real>, i: int)
    requires IsFirstMax(scores, i)
    ensures forall k :: IsFirstMax(scores, k) ==> k == i
    ensures Max(scores) == scores[i]
  {
  }

  /** Every label has a remedy in exactly the three supported languages. */
  lemma RemedyTableComplete()
    ensures forall i :: 0 <= i < |CLASS_NAMES| ==>
      CLASS_NAMES[i] in REMEDIES && REMEDIES[CLASS_NAMES[i]].Keys == LANGUAGES
  {
  }

  /** The three fields `download_report` reads with `.get`: missing while the slot is empty. */
  datatype ReportFields = ReportFields(disease: Option<string>, confidence: Option<real>, remedy: Option<string>)

  /** What `download_report` reads from the slot. */
  function ReportOf(slot: Option<Prediction>): (f: ReportFields)
    ensures slot.None? <==> f.disease.None?
    ensures slot.None? ==> f.confidence.None? && f.remedy.None?
    ensures slot.Some? ==> f == ReportFields(Some(slot.value.disease), Some(slot.value.confidence), Some(slot.value.remedy))
  {
    match slot
    case None => ReportFields(None, None, None)
    case Some(p) => ReportFields(Some(p.disease), Some(p.confidence), Some(p.remedy))
  }

  // ---------------------------------------------------------------------
  // Properties of the resolution step

  /** On the classifier's own output shape the request fails exactly when the
      language has no remedy column. */
  lemma ClassifierOutputResolves(scores: seq<real>, language: Option<string>)
    requires |scores| == |CLASS_NAMES|
    ensures Resolve(Some(scores), language).Success? <==> RequestLanguage(language) in LANGUAGES
    ensures RequestLanguage(language) !in LANGUAGES ==>
      Resolve(Some(scores), language) == Failure(UnsupportedLanguage(RequestLanguage(language)))
  {
  }

  /** Without a language field the English remedy is returned. */
  lemma MissingLanguageMeansEnglish(scores: seq<real>)
    requires |scores| == |CLASS_NAMES|
    ensures var r := Resolve(Some(scores), None);
      r.Success? && r.value.remedy == REMEDIES[r.value.disease]["en"]
  {
    var i := ArgMax(scores);
  }

  /** The chosen label's score is at least every other score; when scores are
      probabilities the confidence lies between 0 and 100. */
  lemma ConfidenceIsTopScore(scores: seq<real>, language: Option<string>)
    requires |scores| == |CLASS_NAMES| && RequestLanguage(language) in LANGUAGES
    ensures var r := Resolve(Some(scores), language);
      && r.Success?
      && (forall j :: 0 <= j < |scores| ==> Percent(scores[j]) <= r.value.confidence)
      && ((forall j :: 0 <= j < |scores| ==> 0.0 <= scores[j] <= 1.0) ==> 0.0 <= r.value.confidence <= 100.0)
  {
    var i := ArgMax(scores);
    var c := Resolve(Some(scores), language).value.confidence;
    assert c == Percent(scores[i]);
  }

  /** Of two positions holding the same score, the later one is never the argmax. */
  lemma TieGoesToLowerIndex(scores: seq<real>, i: nat, j: nat)
    requires i < j < |scores| && scores[i] == scores[j]
    ensures ArgMax(scores) != j
  {
  }

  /** ... so the later position's label is never the answer. */
  lemma TiedLaterLabelNeverChosen(scores: seq<real>, language: Option<string>, i: nat, j: nat)
    requires i < j < |scores| == |CLASS_NAMES| && scores[i] == scores[j]
    ensures var r := Resolve(Some(scores), language);
      r.Success? ==> r.value.disease != CLASS_NAMES[j]
  {
    var k := ArgMax(scores);
    TieGoesToLowerIndex(scores, i, j);
    assert IsFirstMax(scores, k);
    ClassNamesDistinct();
  }

  /** No label appears twice in `class_names`. */
  lemma ClassNamesDistinct()
    ensures forall a, b :: 0 <= a < b < |CLASS_NAMES| ==> CLASS_NAMES[a] != CLASS_NAMES[b]
  {
  }

  /** A concrete tie between the first and third labels in Hindi. */
  lemma TiedScoresExample()
    ensures Resolve(Some([0.4, 0.1, 0.4, 0.1]), Some("hi"))
      == Success(Prediction("Apple Scab", 40.0, "कैप्टन जैसे फफूंदनाशक का उपयोग करें।"))
  {
    var scores := [0.4, 0.1, 0.4, 0.1];
    assert IsFirstMax(scores, 0);
  }

  /** Any four probabilities with language "hi" yield a catalogued disease, a
      percentage, and that disease's Hindi remedy. */
  lemma HindiRequestScenario(scores: seq<real>)
    requires |scores| == |CLASS_NAMES|
    requires forall j :: 0 <= j < |scores| ==> 0.0 <= scores[j] <= 1.0
    ensures var r := Resolve(Some(scores), Some("hi"));
      && r.Success?
      && r.value.disease in CLASS_NAMES
      && 0.0 <= r.value.confidence <= 100.0
      && r.value.remedy == REMEDIES[r.value.disease]["hi"]
  {
    ConfidenceIsTopScore(scores, Some("hi"));
  }

  /** The process state of the Flask app: the `last_prediction` slot. */
  class PredictionService {
    /** `None` for the empty dictionary the slot starts as. */
    var lastPrediction: Option<Prediction>

    /** Module load: no prediction has been made yet. */
    constructor ()
      ensures lastPrediction == None
    {
      lastPrediction := None;
    }

    /**
     * `predict`: resolve the request; on success replace the slot with the
     * result and return it, on failure leave the slot as it was.
     */
    method Predict(classified: Option<seq<real>>, language: Option<string>) returns (r: Result<Prediction, PredictError>)
      modifies this
      ensures r == Resolve(classified, language)
      ensures r.Success? ==> lastPrediction == Some(r.value)
      ensures r.Failure? ==> lastPrediction == old(lastPrediction)
    {
      r := Resolve(classified, language);
      if r.Success? {
        lastPrediction := Some(r.value);
        r := Success(lastPrediction.value);
      }
    }

    /** `download_report` reads the slot as it is when the report is requested. */
    method DownloadReport() returns (f: ReportFields)
      ensures f == ReportOf(lastPrediction)
      ensures lastPrediction.None? ==> f == ReportFields(None, None, None)
    {
      f := ReportOf(lastPrediction);
    }
  }

  /** Two predictions in a row: the slot ends up holding only the later
      successful result, never a mix of the two. */
  method TwoPredictions(svc: PredictionService, first: Option<seq<real>>, firstLanguage: Option<string>,
                        second: Option<seq<real>>, secondLanguage: Option<string>)
    returns (r1: Result<Prediction, PredictError>, r2: Result<Prediction, PredictError>)
    modifies svc
    ensures r1 == Resolve(first, firstLanguage) && r2 == Resolve(second, secondLanguage)
    ensures r2.Success? ==> svc.lastPrediction == Some(r2.value)
    ensures r2.Failure? && r1.Success? ==> svc.lastPrediction == Some(r1.value)
    ensures r1.Failure? && r2.Failure? ==> svc.lastPrediction == old(svc.lastPrediction)
  {
    r1 := svc.Predict(first, firstLanguage);
    r2 := svc.Predict(second, secondLanguage);
  }

  /** Before any prediction the report's fields are missing; a rejected upload keeps them so. */
  method FreshServiceScenario() returns (before: ReportFields, rejected: Result<Prediction, PredictError>, after: ReportFields)
    ensures before == ReportFields(None, None, None)
    ensures rejected == Failure(ImageRejected)
    ensures after == before
  {
    var svc := new PredictionService();
    before := svc.DownloadReport();
    rejected := svc.Predict(None, Some("hi"));
    after := svc.DownloadReport();
  }
}
