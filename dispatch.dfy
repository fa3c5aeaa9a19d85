/** The per-frame gesture dispatch of script.js, as values: the classifier's
    predictions, the choice of the top prediction, the confidence threshold and
    the table of response videos. The page whose elements these decisions
    change is the class in module App. */
module Dispatch {

  datatype Option<+T> = None | Some(value: T)

  /** One record of the classifier's output: a class label and its probability. */
  datatype Prediction = Prediction(className: string, probability: real)

  /** Minimum probability for a gesture to count as recognised (inclusive). */
  const ConfidenceThreshold: real := 0.85

  /** Text shown in the result element when no gesture is recognised. */
  const Indeterminate: string := "Indeterminado"

  /** Class label to response clip. */
  const VideoSources: map<string, string> :=
    map[
      "derivada_1_x" := "videos/resposta_derivada_1_x.mp4",
      "letra_a" := "videos/resposta_letra_a.mp4"
    ]

  /** What one frame asks of the response video. */
  datatype Action =
    | Play(source: string)  // load this clip, show it and start it
    | Stop                  // hide it, pause it and rewind it
    | Keep                  // leave it as it is

  /** What one frame does to the page: the result text and the video action. */
  datatype Outcome = Outcome(text: string, action: Action)

  predicate Recognised(probability: real) {
    probability >= ConfidenceThreshold
  }

  /** `k` is the first index holding the largest probability of `ps`. */
  predicate IsFirstMax(ps: seq<Prediction>, k: nat) {
    && k < |ps|
    && (forall j | 0 <= j < |ps| :: ps[j].probability <= ps[k].probability)
    && (forall j | 0 <= j < k :: ps[j].probability < ps[k].probability)
  }

  /** The index the scan of the predictions settles on: a later record replaces
      the one kept so far only when its probability is strictly greater. */
  function TopIndex(ps: seq<Prediction>): (k: nat)
    requires |ps| > 0
    ensures IsFirstMax(ps, k)
    decreases |ps|
  {
    if |ps| == 1 then 0
    else
      var k := TopIndex(ps[..|ps| - 1]);
      if ps[|ps| - 1].probability > ps[k].probability then |ps| - 1 else k
  }

  /** The scan over the predictions that keeps the top one. An empty list has
      no top prediction: the source then hands `undefined` on and its error
      handler swallows the failure, so `None` stands for that frame. */
  method SelectTop(predictions: seq<Prediction>) returns (top: Option<Prediction>)
    ensures top.None? <==> |predictions| == 0
    ensures top.Some? ==> top.value in predictions
    ensures top.Some? ==> forall j | 0 <= j < |predictions| :: predictions[j].probability <= top.value.probability
    ensures top.Some? ==> top.value == predictions[TopIndex(predictions)]
  {
    if |predictions| == 0 {
      return None;
    }
    var best := predictions[0];
    for i := 0 to |predictions|
      invariant i == 0 ==> best == predictions[0]
      invariant i > 0 ==> best == predictions[TopIndex(predictions[..i])]
    {
      if predictions[i].probability > best.probability {
        best := predictions[i];
      }
      assert predictions[..i + 1][..i] == predictions[..i];
    }
    assert predictions[..|predictions|] == predictions;
    return Some(best);
  }

  /** The video request for a recognised class: its clip when the table has a
      (non-empty) entry for it, otherwise nothing. */
  function PlayRequest(className: string): (a: Action)
    ensures a != Stop
    ensures a.Play? <==> className in VideoSources
    ensures a.Play? ==> a.source == VideoSources[className]
  {
    if className in VideoSources && VideoSources[className] != "" then
      Play(VideoSources[className])
    else
      Keep
  }

  /** The threshold decision for the top prediction of a frame. */
  function Decide(top: Prediction): (o: Outcome)
    ensures o.text == if top.probability >= ConfidenceThreshold then top.className else Indeterminate
    ensures o.action.Stop? <==> top.probability < ConfidenceThreshold
    ensures o.action.Play? <==> top.probability >= ConfidenceThreshold && top.className in VideoSources
    ensures o.action.Play? ==> o.action.source == VideoSources[top.className]
  {
    if Recognised(top.probability) then
      Outcome(top.className, PlayRequest(top.className))
    else
      Outcome(Indeterminate, Stop)
  }

  /** One frame's dispatch, given the classifier's output. */
  function Tick(ps: seq<Prediction>): (r: Option<Outcome>)
    ensures r.None? <==> |ps| == 0
    ensures r.Some? ==>
      (r.value.action.Stop? <==> forall i | 0 <= i < |ps| :: ps[i].probability < ConfidenceThreshold)
    ensures r.Some? && !r.value.action.Stop? ==>
      r.value.text in (set i | 0 <= i < |ps| && Recognised(ps[i].probability) :: ps[i].className)
  {
    if |ps| == 0 then None else Some(Decide(ps[TopIndex(ps)]))
  }

  /** The tie-break fixes the choice: only one index is the first maximum. */
  lemma FirstMaxUnique(ps: seq<Prediction>, i: nat, j: nat)
    requires IsFirstMax(ps, i) && IsFirstMax(ps, j)
    ensures i == j
  {
    // each index's probability is at most the other's, so neither can be
    // strictly below the other, as an earlier index would have to be
    assert ps[i].probability == ps[j].probability;
  }

  /** The top probability does not depend on the order of the classifier's
      output. */
  lemma {:induction false} TopProbabilityOrderIndependent(ps: seq<Prediction>, qs: seq<Prediction>)
    requires |ps| > 0 && multiset(ps) == multiset(qs)
    ensures |qs| > 0
    ensures ps[TopIndex(ps)].probability == qs[TopIndex(qs)].probability
  {
    assert ps[0] in multiset(qs);
    var a, b := ps[TopIndex(ps)], qs[TopIndex(qs)];
    assert a in multiset(ps);
    assert a in qs;
    assert b in multiset(qs);
    assert b in ps;
  }

  /** When a single record holds the top probability, every ordering of the
      output selects that record. */
  lemma {:induction false} TopChoiceOrderIndependent(ps: seq<Prediction>, qs: seq<Prediction>)
    requires |ps| > 0 && multiset(ps) == multiset(qs)
    requires forall i | 0 <= i < |ps| && ps[i].probability == ps[TopIndex(ps)].probability :: ps[i] == ps[TopIndex(ps)]
    ensures |qs| > 0
    ensures qs[TopIndex(qs)] == ps[TopIndex(ps)]
  {
    TopProbabilityOrderIndependent(ps, qs);
    var b := qs[TopIndex(qs)];
    assert b in multiset(qs);
    assert b in ps;
  }

  /** A recognised class with a clip plays that clip. */
  lemma ScenarioRecognisedWithVideo()
    ensures Tick([Prediction("derivada_1_x", 0.2), Prediction("letra_a", 0.9)])
         == Some(Outcome("letra_a", Play("videos/resposta_letra_a.mp4")))
  {
  }

  /** A recognised class without a clip is only shown. */
  lemma ScenarioRecognisedWithoutVideo()
    ensures Tick([Prediction("letra_b", 0.99)]) == Some(Outcome("letra_b", Keep))
  {
  }

  /** A probability exactly at the threshold is recognised. */
  lemma ScenarioAtThreshold()
    ensures Tick([Prediction("letra_a", 0.1), Prediction("derivada_1_x", 0.85)])
         == Some(Outcome("derivada_1_x", Play("videos/resposta_derivada_1_x.mp4")))
  {
  }

  /** Equal top probabilities: the earlier record wins. */
  lemma ScenarioTie()
    ensures Tick([Prediction("letra_a", 0.9), Prediction("derivada_1_x", 0.9)])
         == Some(Outcome("letra_a", Play("videos/resposta_letra_a.mp4")))
  {
  }

  /** Nothing reaches the threshold: the video is stopped. */
  lemma ScenarioBelowThreshold()
    ensures Tick([Prediction("letra_a", 0.5), Prediction("derivada_1_x", 0.84)])
         == Some(Outcome(Indeterminate, Stop))
  {
  }
}
