/** The ranking model loader: pairs row 0 of the probability matrix with the label table and
    returns every pair, sorted by confidence from highest to lowest with Python's stable
    `sorted(..., reverse=True)`. */
module RankedModelLoader {
  import opened Failures
  import LabelFile

  /** One labelled confidence. The source's field `label` is a reserved word in Dafny, so the
      field is called `className` here. */
  datatype ModelPredictions = ModelPredictions(className: string, confidence: real)

  /** What a prediction returns: all predictions, ranked, and the measured inference time. */
  datatype ModelResponse = ModelResponse(predictions: seq<ModelPredictions>, inferenceTimeMs: real)

  // ---------------------------------------------------------------------------
  // Pairing scores with labels
  // ---------------------------------------------------------------------------

  /** The comprehension over `range(len(labels))`: entry i pairs labels[i] with probs[i];
      a probability row shorter than the label table raises IndexError. */
  function PairWithLabels(labels: seq<string>, probs: seq<real>): (r: Result<seq<ModelPredictions>>)
    ensures r.Ok? <==> |probs| >= |labels|
    ensures r.Err? ==> r.error == IndexError
    ensures r.Ok? ==> r.value == Paired(labels, probs)
  {
    if |probs| < |labels| then Err(IndexError)
    else Ok(Paired(labels, probs))
  }

  /** The unranked list: exactly one entry per label, entry i holding labels[i] and probs[i]. */
  function Paired(labels: seq<string>, probs: seq<real>): (ps: seq<ModelPredictions>)
    requires |probs| >= |labels|
    ensures |ps| == |labels|
    ensures forall i :: 0 <= i < |labels| ==> ps[i] == ModelPredictions(labels[i], probs[i])
  {
    seq(|labels|, i requires 0 <= i < |labels| => ModelPredictions(labels[i], probs[i]))
  }

  // ---------------------------------------------------------------------------
  // Stable descending sort
  // ---------------------------------------------------------------------------

  /** Confidences never increase along `ps`. */
  predicate SortedDescending(ps: seq<ModelPredictions>)
  {
    forall i, j :: 0 <= i < j < |ps| ==> ps[i].confidence >= ps[j].confidence
  }

  /** The entries of `ps` whose confidence is exactly `c`, in their order in `ps`. */
  function WithConfidence(ps: seq<ModelPredictions>, c: real): seq<ModelPredictions>
  {
    if ps == [] then []
    else (if ps[0].confidence == c then [ps[0]] else []) + WithConfidence(ps[1..], c)
  }

  /** Places `p` before the first entry of `ps` whose confidence does not exceed its own, so
      `p` goes ahead of the entries it ties with. */
  function Insert(p: ModelPredictions, ps: seq<ModelPredictions>): (r: seq<ModelPredictions>)
    ensures |r| == |ps| + 1
    ensures multiset(r) == multiset(ps) + multiset{p}
  {
    if ps == [] || p.confidence >= ps[0].confidence then [p] + ps
    else
      assert ps == [ps[0]] + ps[1..];
      [ps[0]] + Insert(p, ps[1..])
  }

  /** `sorted(ps, key=lambda x: x.confidence, reverse=True)`. Python's sort is stable also in
      reverse mode: entries with equal confidence keep their original order. */
  function SortByConfidence(ps: seq<ModelPredictions>): (r: seq<ModelPredictions>)
    ensures |r| == |ps|
    ensures multiset(r) == multiset(ps)
  {
    if ps == [] then []
    else
      assert ps == [ps[0]] + ps[1..];
      Insert(ps[0], SortByConfidence(ps[1..]))
  }

  lemma {:induction false} InsertSorted(p: ModelPredictions, ps: seq<ModelPredictions>)
    requires SortedDescending(ps)
    ensures SortedDescending(Insert(p, ps))
  {
    if ps != [] && p.confidence < ps[0].confidence {
      InsertSorted(p, ps[1..]);
      var r := Insert(p, ps);
      forall j | 0 < j < |r| ensures r[0].confidence >= r[j].confidence {
        assert r[j] in multiset(Insert(p, ps[1..]));
        assert r[j] in multiset(ps[1..]) + multiset{p};
        if r[j] in multiset(ps[1..]) {
          var k :| 0 <= k < |ps[1..]| && ps[1..][k] == r[j];
          assert ps[k + 1] == r[j];
        }
      }
    }
  }

  /** The result is in non-increasing confidence order. */
  lemma {:induction false} SortIsSorted(ps: seq<ModelPredictions>)
    ensures SortedDescending(SortByConfidence(ps))
  {
    if ps != [] {
      SortIsSorted(ps[1..]);
      InsertSorted(ps[0], SortByConfidence(ps[1..]));
    }
  }

  lemma {:induction false} InsertKeepsTies(p: ModelPredictions, ps: seq<ModelPredictions>, c: real)
    requires SortedDescending(ps)
    ensures WithConfidence(Insert(p, ps), c) ==
      (if p.confidence == c then [p] else []) + WithConfidence(ps, c)
  {
    if ps == [] || p.confidence >= ps[0].confidence {
      assert ([p] + ps)[1..] == ps;
    } else {
      assert SortedDescending(ps[1..]);
      InsertKeepsTies(p, ps[1..], c);
      assert ([ps[0]] + Insert(p, ps[1..]))[1..] == Insert(p, ps[1..]);
      if p.confidence == c {
        // ps[0] is strictly above c, so it is not among the ties
        assert ps[0].confidence != c;
      }
    }
  }

  /** Stability: for every confidence value, the entries with that value come out in the
      same order as they went in. */
  lemma {:induction false} SortIsStable(ps: seq<ModelPredictions>, c: real)
    ensures WithConfidence(SortByConfidence(ps), c) == WithConfidence(ps, c)
  {
    if ps != [] {
      SortIsStable(ps[1..], c);
      SortIsSorted(ps[1..]);
      InsertKeepsTies(ps[0], SortByConfidence(ps[1..]), c);
    }
  }

  /** The first entry of the ranking is the first entry with the highest confidence. */
  lemma {:induction false} SortHead(ps: seq<ModelPredictions>, k: nat)
    requires k < |ps|
    requires forall j :: 0 <= j < |ps| ==> ps[j].confidence <= ps[k].confidence
    requires forall j :: 0 <= j < k ==> ps[j].confidence < ps[k].confidence
    ensures SortByConfidence(ps)[0] == ps[k]
  {
    var rest := SortByConfidence(ps[1..]);
    assert SortByConfidence(ps) == Insert(ps[0], rest);
    if k == 0 {
      if rest != [] {
        InsertAtFront(ps[0], rest, ps[1..]);
      }
    } else {
      SortHead(ps[1..], k - 1);
      assert rest[0] == ps[k];
      assert ps[0].confidence < rest[0].confidence;
    }
  }

  /** An entry at least as confident as everything in `qs` is inserted in front of any
      arrangement `rest` of `qs`. */
  lemma {:induction false} InsertAtFront(p: ModelPredictions, rest: seq<ModelPredictions>,
                                         qs: seq<ModelPredictions>)
    requires rest != [] && multiset(rest) == multiset(qs)
    requires forall j :: 0 <= j < |qs| ==> qs[j].confidence <= p.confidence
    ensures Insert(p, rest)[0] == p
  {
    assert rest[0] in multiset(qs);
    var j :| 0 <= j < |qs| && qs[j] == rest[0];
  }

  // ---------------------------------------------------------------------------
  // The model loader
  // ---------------------------------------------------------------------------

  /** `ModelLoader` of loaders/model_loader.py. The inference session is not modelled: a
      prediction receives the session's output, already turned into probabilities, and the
      measured time. The label table is read once, at construction. */
  class ModelLoader {
    const labels: seq<string>

    constructor (labelFileText: string)
      ensures labels == LabelFile.LoadLabels(labelFileText)
    {
      labels := LabelFile.LoadLabels(labelFileText);
    }

    /** `run_prediction` from the probabilities onwards: only batch row 0 is used, each label
        is paired with its probability, and the full list is ranked. */
    function RunPrediction(probs: seq<seq<real>>, elapsedMs: real): (r: Result<ModelResponse>)
      ensures r.Ok? <==> |probs| > 0 && |probs[0]| >= |labels|
      ensures r.Err? ==> r.error == IndexError
      ensures r.Ok? ==> r.value.inferenceTimeMs == elapsedMs
      ensures r.Ok? ==> |r.value.predictions| == |labels|
      ensures r.Ok? ==> SortedDescending(r.value.predictions)
      ensures r.Ok? ==> multiset(r.value.predictions) == multiset(Paired(labels, probs[0]))
      ensures r.Ok? ==> forall c ::
        WithConfidence(r.value.predictions, c) == WithConfidence(Paired(labels, probs[0]), c)
    {
      if |probs| == 0 then Err(IndexError)
      else
        var allPredictions :- PairWithLabels(labels, probs[0]);
        var ranked := SortByConfidence(allPredictions);
        SortIsSorted(allPredictions);
        assert forall c :: WithConfidence(ranked, c) == WithConfidence(allPredictions, c) by {
          forall c ensures WithConfidence(ranked, c) == WithConfidence(allPredictions, c) {
            SortIsStable(allPredictions, c);
          }
        }
        Ok(ModelResponse(ranked, elapsedMs))
    }

    /** Rows of the probability matrix other than row 0 never influence the response. */
    lemma OnlyFirstRowUsed(probs: seq<seq<real>>, others: seq<seq<real>>, elapsedMs: real)
      requires |probs| > 0 && |others| > 0 && probs[0] == others[0]
      ensures RunPrediction(probs, elapsedMs) == RunPrediction(others, elapsedMs)
    {
    }
  }
}
