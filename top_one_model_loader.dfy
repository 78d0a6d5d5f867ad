/** The first draft of the model loader: it reports only the best class, found with numpy's
    `argmax` over the whole output array, together with that class's raw score. */
module TopOneModelLoader {
  import opened Failures
  import opened Sequences
  import LabelFile
  import RankedModelLoader

  /** What the draft prints: the class index, its label and its raw score. */
  datatype TopPrediction = TopPrediction(classIndex: nat, className: string, confidence: real)

  /** numpy `argmax` of a non-empty vector: the first position holding the largest value. */
  function ArgMax(s: seq<real>): (k: nat)
    requires |s| > 0
    ensures k < |s|
    ensures forall j :: 0 <= j < |s| ==> s[j] <= s[k]
    ensures forall j :: 0 <= j < k ==> s[j] < s[k]
  {
    if |s| == 1 then 0
    else
      var k := ArgMax(s[..|s| - 1]);
      if s[|s| - 1] > s[k] then |s| - 1 else k
  }

  /** `ModelLoader` of model_loader.py; the session's raw output is passed in. */
  class ModelLoader {
    const labels: seq<string>

    constructor (labelFileText: string)
      ensures labels == LabelFile.LoadLabels(labelFileText)
    {
      labels := LabelFile.LoadLabels(labelFileText);
    }

    /** `run_prediction`: `argmax` over the flattened output (an empty output raises
        ValueError), the label at that index, and the raw score `predictions[0][idx]`. Either
        lookup raises IndexError when the index is past its end. */
    function RunPrediction(predictions: seq<seq<real>>): (r: Result<TopPrediction>)
      ensures Flatten(predictions) == [] ==>
        r == Err(ValueError("attempt to get argmax of an empty sequence"))
      ensures Flatten(predictions) != [] ==> predictions != [] && (r.Ok? <==>
        ArgMax(Flatten(predictions)) < |labels| && ArgMax(Flatten(predictions)) < |predictions[0]|)
      ensures r.Ok? ==> Flatten(predictions) != [] && predictions != []
      ensures r.Ok? ==> r.value.classIndex == ArgMax(Flatten(predictions))
      ensures r.Ok? ==> r.value.classIndex < |labels| && r.value.classIndex < |predictions[0]|
      ensures r.Ok? ==> r.value.className == labels[r.value.classIndex]
      ensures r.Ok? ==> r.value.confidence == predictions[0][r.value.classIndex]
      ensures r.Ok? ==> forall j :: 0 <= j < |Flatten(predictions)| ==>
        Flatten(predictions)[j] <= r.value.confidence
      ensures r.Ok? ==> forall j :: 0 <= j < r.value.classIndex ==>
        Flatten(predictions)[j] < r.value.confidence
      ensures r.Err? && Flatten(predictions) != [] ==> r.error == IndexError
    {
      var scores := Flatten(predictions);
      if scores == [] then Err(ValueError("attempt to get argmax of an empty sequence"))
      else
        var idx := ArgMax(scores);
        if idx >= |labels| then Err(IndexError)
        else if idx >= |predictions[0]| then Err(IndexError)
        else
          FirstRowPrefix(predictions, idx);
          Ok(TopPrediction(idx, labels[idx], predictions[0][idx]))
    }
  }

  /** The first row is the start of the flattened array. */
  lemma FirstRowPrefix(predictions: seq<seq<real>>, i: nat)
    requires predictions != [] && i < |predictions[0]|
    ensures i < |Flatten(predictions)| && Flatten(predictions)[i] == predictions[0][i]
  {
    assert Flatten(predictions) == predictions[0] + Flatten(predictions[1..]);
  }

  /** For a non-empty single-row output that has one score per label, the draft succeeds, at
      the row's argmax. */
  lemma SingleRowSucceeds(loader: ModelLoader, row: seq<real>)
    requires |row| == |loader.labels| > 0
    ensures loader.RunPrediction([row]).Ok?
    ensures loader.RunPrediction([row]).value.classIndex == ArgMax(row)
  {
    assert [row][1..] == [];
    assert Flatten([row]) == row;
  }

  /** The draft's best class is the head of the ranking that the later loader builds from the
      same row: the stable descending sort puts the first maximum first. */
  lemma TopIsHeadOfRanking(labels: seq<string>, row: seq<real>)
    requires |row| == |labels| > 0
    ensures var ranked := RankedModelLoader.SortByConfidence(RankedModelLoader.Paired(labels, row));
      var k := ArgMax(row);
      ranked[0] == RankedModelLoader.ModelPredictions(labels[k], row[k])
  {
    var ps := RankedModelLoader.Paired(labels, row);
    var k := ArgMax(row);
    RankedModelLoader.SortHead(ps, k);
  }
}
