/** The dialogue sampler: one line per slot, drawn from the pool of an
    emotion class, or a fixed fallback sentence when that class has no pool.
    `Math.random()` is an input: each draw is a real in [0, 1). */
module DialogueSampler {
  import opened PropertyKeys
  import opened DatasetIndex
  import EmotionResolver

  /** The line shown for a class without utterances. */
  const Fallback: string := "Your memory will be preserved in jpegs and archived chat messages"

  /** `numberOfLines`: how many lines one sample holds. */
  const NumberOfLines: nat := 125

  /** A value `Math.random()` can return. */
  predicate IsRandom(r: real) {
    0.0 <= r < 1.0
  }

  predicate AllRandom(rand: seq<real>) {
    forall i :: 0 <= i < |rand| ==> IsRandom(rand[i])
  }

  /** `Math.floor(Math.random() * n)`: always a valid index of a pool of size n. */
  function RandomIndex(r: real, n: nat): (k: nat)
    requires IsRandom(r) && n > 0
    ensures k < n
  {
    var x := r * n as real;
    assert x < n as real by {
      assert (1.0 - r) * (n as real) > 0.0;
      assert (1.0 - r) * (n as real) == n as real - x;
    }
    x.Floor
  }

  /** `dataset[emotion]` exists and is non-empty (`dialogues && dialogues.length > 0`). */
  predicate HasPool(dataset: EmotionIndex, emotion: string) {
    emotion in dataset && |dataset[emotion]| > 0
  }

  /** `getRandomDialogue`: a member of the class's pool, or the fallback. */
  function GetRandomDialogue(dataset: EmotionIndex, emotion: string, r: real): (d: string)
    requires IsRandom(r)
    ensures HasPool(dataset, emotion) ==> d in dataset[emotion]
    ensures !HasPool(dataset, emotion) ==> d == Fallback
  {
    if HasPool(dataset, emotion) then
      var dialogues := dataset[emotion];
      dialogues[RandomIndex(r, |dialogues|)]
    else
      Fallback
  }

  /** Every member of a pool is drawn by some value of `Math.random()`:
      member k by k / n. */
  lemma EveryMemberDrawable(dataset: EmotionIndex, emotion: string, k: nat)
    requires HasPool(dataset, emotion) && k < |dataset[emotion]|
    ensures var n := |dataset[emotion]|;
      IsRandom(k as real / n as real)
      && GetRandomDialogue(dataset, emotion, k as real / n as real) == dataset[emotion][k]
  {
    var n := |dataset[emotion]| as real;
    var r := k as real / n;
    assert r * n == k as real;
    assert 0.0 <= r < 1.0 by {
      assert k as real < n;
    }
    assert (k as real).Floor == k;
    assert RandomIndex(r, |dataset[emotion]|) == k;
  }

  /** What `selectRandomDialogues` leaves in `dialoguesToDisplay`: slot i is
      the dialogue drawn with the i-th random value. */
  function Sample(dataset: EmotionIndex, emotionClass: string, rand: seq<real>): (lines: seq<string>)
    requires AllRandom(rand)
    ensures |lines| == |rand|
    ensures HasPool(dataset, emotionClass) ==>
      forall i :: 0 <= i < |lines| ==> lines[i] in dataset[emotionClass]
    ensures !HasPool(dataset, emotionClass) ==>
      forall i :: 0 <= i < |lines| ==> lines[i] == Fallback
  {
    seq(|rand|, i requires 0 <= i < |rand| => GetRandomDialogue(dataset, emotionClass, rand[i]))
  }

  lemma SampleSnoc(dataset: EmotionIndex, emotionClass: string, rand: seq<real>, i: nat)
    requires AllRandom(rand) && i < |rand|
    ensures Sample(dataset, emotionClass, rand[..i + 1])
         == Sample(dataset, emotionClass, rand[..i]) + [GetRandomDialogue(dataset, emotionClass, rand[i])]
  {
    var a := Sample(dataset, emotionClass, rand[..i + 1]);
    var b := Sample(dataset, emotionClass, rand[..i]) + [GetRandomDialogue(dataset, emotionClass, rand[i])];
    assert |a| == |b|;
    forall j | 0 <= j < |a| ensures a[j] == b[j] {
      assert rand[..i + 1][j] == rand[j];
    }
  }

  /** A line that can be on screen: the fallback or an utterance of the dataset. */
  ghost predicate Drawable(dataset: EmotionIndex, line: string) {
    line == Fallback || exists k :: k in dataset && line in dataset[k]
  }

  /** Every sampled line is the fallback or an utterance of the dataset. */
  lemma SampleDrawable(dataset: EmotionIndex, emotionClass: string, rand: seq<real>)
    requires AllRandom(rand)
    ensures forall i :: 0 <= i < |rand| ==> Drawable(dataset, Sample(dataset, emotionClass, rand)[i])
  {
    var lines := Sample(dataset, emotionClass, rand);
    forall i | 0 <= i < |rand| ensures Drawable(dataset, lines[i]) {
      if HasPool(dataset, emotionClass) {
        assert emotionClass in dataset && lines[i] in dataset[emotionClass];
      }
    }
  }

  /** Every code the resolver returns is the key of one of the dataset labels
      0..6, so a resolved emotion selects the pool those labels built. */
  lemma CodeIsLabelKey(code: string)
    requires code in EmotionResolver.Codes
    ensures exists k :: 0 <= k <= 6 && LabelKey(Some(k)) == code
  {
    var k := (code[0] as int) - ('0' as int);
    SmallLabelKeys(k);
    assert LabelKey(Some(k)) == code;
  }
}
