/** The refresh pacer: how often the displayed lines are resampled. The
    interval shrinks by 200 ms per visible face, down to a floor of 100 ms;
    with no face in view nothing is resampled and the pacing state freezes. */
module RefreshPacer {
  import opened DatasetIndex
  import opened EmotionResolver
  import opened DialogueSampler

  const BaseInterval: int := 1000
  const Increment: int := 200
  const MinInterval: int := 100

  /** The interval `adjustChangeInterval` computes for a face count:
      `Math.max(baseInterval - numFaces * increment, minInterval)`. */
  function AdjustedInterval(numFaces: nat): (interval: int)
    ensures MinInterval <= interval <= BaseInterval
    ensures interval >= BaseInterval - numFaces * Increment
    ensures interval == MinInterval || interval == BaseInterval - numFaces * Increment
  {
    var scaled := BaseInterval - numFaces * Increment;
    if scaled > MinInterval then scaled else MinInterval
  }

  /** More faces never slow the display down. */
  lemma IntervalNonIncreasing(fewer: nat, more: nat)
    requires fewer <= more
    ensures AdjustedInterval(more) <= AdjustedInterval(fewer)
  {
  }

  /** 0 faces give 1000 ms, 1 face 800 ms, 4 faces 200 ms, and from 5 faces
      on the floor of 100 ms. */
  lemma IntervalValues(numFaces: nat)
    ensures AdjustedInterval(0) == 1000 && AdjustedInterval(1) == 800 && AdjustedInterval(4) == 200
    ensures numFaces <= 4 ==> AdjustedInterval(numFaces) == 1000 - 200 * numFaces
    ensures numFaces >= 5 ==> AdjustedInterval(numFaces) == MinInterval
  {
  }

  /** The state the pacing block of `renderCanvas` reads and writes. */
  datatype Pacing = Pacing(lastChangeTime: real, changeInterval: int, lines: seq<string>)

  /** The pacing block of `renderCanvas` for one frame. `checkTime` and
      `stampTime` are the two `millis()` readings (the elapsed-time check and
      the new timestamp); `rand` supplies the sampler's `Math.random()` draws. */
  function RenderStep(p: Pacing, dataset: EmotionIndex, detections: seq<Detection>,
                      checkTime: real, stampTime: real, rand: seq<real>): (q: Pacing)
    requires AllRandom(rand)
    requires |detections| > 0 ==> |detections[0].expressions| > 0
    ensures |detections| == 0 ==> q == p
    ensures |detections| > 0 ==> q.changeInterval == AdjustedInterval(|detections|)
    ensures |detections| > 0 && checkTime - p.lastChangeTime > p.changeInterval as real ==>
      q.lastChangeTime == stampTime && q.lines == Sample(dataset, GetMostProminentEmotion(detections), rand)
    ensures !(checkTime - p.lastChangeTime > p.changeInterval as real) ==>
      q.lastChangeTime == p.lastChangeTime && q.lines == p.lines
  {
    if |detections| > 0 then
      var resampled :=
        if checkTime - p.lastChangeTime > p.changeInterval as real then
          var mostProminentEmotion := GetMostProminentEmotion(detections);
          p.(lines := Sample(dataset, mostProminentEmotion, rand), lastChangeTime := stampTime)
        else p;
      resampled.(changeInterval := AdjustedInterval(|detections|))
    else
      p
  }

  /** What stays true of the pacing state from one frame to the next: the
      interval lies in [100, 1000] and the display holds `numberOfLines`
      lines, each the fallback or an utterance of the dataset. */
  ghost predicate PacingValid(p: Pacing, dataset: EmotionIndex) {
    && MinInterval <= p.changeInterval <= BaseInterval
    && |p.lines| == NumberOfLines
    && forall i :: 0 <= i < |p.lines| ==> Drawable(dataset, p.lines[i])
  }

  lemma RenderStepKeepsValid(p: Pacing, dataset: EmotionIndex, detections: seq<Detection>,
                             checkTime: real, stampTime: real, rand: seq<real>)
    requires AllRandom(rand) && |rand| == NumberOfLines
    requires |detections| > 0 ==> |detections[0].expressions| > 0
    requires PacingValid(p, dataset)
    ensures PacingValid(RenderStep(p, dataset, detections, checkTime, stampTime, rand), dataset)
  {
    if |detections| > 0 {
      SampleDrawable(dataset, GetMostProminentEmotion(detections), rand);
    }
  }

  /** Two consecutive frames with a face: the second one resamples only if
      more than the interval of the first frame's face count has elapsed
      since the first frame's timestamp. */
  lemma IntervalOfPreviousFrameGoverns(p: Pacing, dataset: EmotionIndex,
                                       first: seq<Detection>, second: seq<Detection>,
                                       t1: real, s1: real, t2: real, s2: real,
                                       r1: seq<real>, r2: seq<real>)
    requires AllRandom(r1) && AllRandom(r2)
    requires |first| > 0 && |first[0].expressions| > 0
    requires |second| > 0 && |second[0].expressions| > 0
    ensures var q := RenderStep(p, dataset, first, t1, s1, r1);
      var q2 := RenderStep(q, dataset, second, t2, s2, r2);
      (t2 - q.lastChangeTime > AdjustedInterval(|first|) as real ==> q2.lastChangeTime == s2)
      && (!(t2 - q.lastChangeTime > AdjustedInterval(|first|) as real) ==> q2.lastChangeTime == q.lastChangeTime && q2.lines == q.lines)
  {
  }
}
