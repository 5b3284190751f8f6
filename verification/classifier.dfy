/**
 * The two-stage pose classifier. A first model names the exercise ("class"),
 * a second model, fed the features plus the first model's prediction, names
 * the exercise and phase ("sub-class"). The answer is trusted only when the two
 * agree on the exercise; otherwise the frame counts as "random-random".
 *
 * The trained models and their label encoders are loaded from disk and are not
 * modelled: they are the black-box functions of a `Models` record. A model
 * that raises (for instance on a feature it cannot handle) yields `Err`.
 */
module PoseClassification {

  import opened Wrappers
  import opened Labels
  import opened FrameProcessing

  datatype Models = Models(
    predictClass: seq<Feature> -> Result<int>,     // clf_clas.predict
    className: int -> string,                      // clas_encoder.inverse_transform
    predictSubclass: seq<Feature> -> Result<int>,  // clf_subclas.predict
    subclassName: int -> string)                   // subclas_encoder.inverse_transform

  /** `np.hstack((features, pred_clas))`: the first prediction appended as one more feature. */
  function Stage2Input(features: seq<Feature>, predicted: int): (r: seq<Feature>)
    ensures |r| == |features| + 1
    ensures r[..|features|] == features && r[|features|] == Some(predicted as real)
  {
    features + [Some(predicted as real)]
  }

  /** The agreement rule of lines 26-30. */
  function Agree(clas: string, subclas: string): (r: string)
    ensures r == subclas || r == RandomLabel
    ensures r != RandomLabel ==> StartsWith(r, clas)
    ensures StartsWith(subclas, clas) ==> r == subclas
  {
    if StartsWith(subclas, clas) then subclas else RandomLabel
  }

  /** `classify`: both models in turn, then the agreement rule. */
  function Classify(m: Models, features: seq<Feature>): (r: Result<string>)
    ensures r.Ok? <==> (m.predictClass(features).Ok?
      && m.predictSubclass(Stage2Input(features, m.predictClass(features).value)).Ok?)
    ensures r.Ok? ==> var clas := m.className(m.predictClass(features).value);
      var subclas := m.subclassName(m.predictSubclass(Stage2Input(features, m.predictClass(features).value)).value);
      r.value == Agree(clas, subclas)
  {
    match m.predictClass(features)
    case Err(e) => Err(e)
    case Ok(predClas) =>
      var clasName := m.className(predClas);
      match m.predictSubclass(Stage2Input(features, predClas))
      case Err(e) => Err(e)
      case Ok(predSubclas) => Ok(Agree(clasName, m.subclassName(predSubclas)))
  }

  /**
   * Whatever the models answer, a classified frame gets either the random label
   * or a label of the shape "<exercise>-..." whose exercise the first model named.
   */
  lemma ClassifiedLabelAgrees(m: Models, features: seq<Feature>)
    requires Classify(m, features).Ok?
    ensures var r := Classify(m, features).value;
      var clas := m.className(m.predictClass(features).value);
      r == RandomLabel || StartsWith(r, clas)
  {
  }

  /** When the two models disagree on the exercise, the frame is counted as random. */
  lemma DisagreementIsRandom(clas: string, subclas: string)
    requires !StartsWith(subclas, clas)
    ensures Agree(clas, subclas) == RandomLabel && Exercise(Agree(clas, subclas)) == RandomExercise
  {
    var r := RandomLabel;
    assert r[6] == '-';
    assert r[..6] == RandomExercise;
    ExerciseOfPrefix(RandomExercise, r);
  }
}
