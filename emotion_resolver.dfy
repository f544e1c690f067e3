/** The emotion resolver: the detector's expression scores of the first face
    are reduced to the name with the highest score, and that name is looked
    up in a fixed table of dataset class codes. */
module EmotionResolver {

  /** One entry of a detection's `expressions` object. */
  datatype Score = Score(name: string, value: real)

  /** The `expressions` object, in `Object.keys` order; an object never has
      the same key twice. */
  type Expressions = s: seq<Score> | forall i, j :: 0 <= i < j < |s| ==> s[i].name != s[j].name

  /** One face found by the detector; only its expression scores are read. */
  datatype Detection = Detection(expressions: Expressions)

  /** The code of the neutral class, also the default for unknown names. */
  const Neutral: string := "0"

  /** The table's seven expression names and the dataset class code of each. */
  const EmotionMap: map<string, string> := map[
    "neutral" := "0",
    "happy" := "4",
    "angry" := "1",
    "sad" := "5",
    "disgusted" := "2",
    "surprised" := "6",
    "fear" := "3"
  ]

  /** The class codes the resolver can return. */
  const Codes: set<string> := {"0", "1", "2", "3", "4", "5", "6"}

  /** `mapApiEmotionToDataset`: the table entry, or "0" for a name the table
      does not hold (every entry is a non-empty string, so `||` only falls
      through for a missing name). */
  function MapApiEmotionToDataset(apiEmotion: string): (code: string)
    ensures code in Codes
    ensures apiEmotion !in EmotionMap ==> code == Neutral
    ensures apiEmotion in EmotionMap ==> code == EmotionMap[apiEmotion]
  {
    if apiEmotion in EmotionMap && EmotionMap[apiEmotion] != "" then EmotionMap[apiEmotion] else Neutral
  }

  /** Reference inverse of the table: the table name of each class code. */
  function DetectorName(code: string): (name: string)
    requires code in Codes
    ensures name in EmotionMap
  {
    if code == "0" then "neutral"
    else if code == "1" then "angry"
    else if code == "2" then "disgusted"
    else if code == "3" then "fear"
    else if code == "4" then "happy"
    else if code == "5" then "sad"
    else "surprised"
  }

  /** Name to code to name is the identity on the table's names. */
  lemma NameCodeName(name: string)
    requires name in EmotionMap
    ensures DetectorName(MapApiEmotionToDataset(name)) == name
  {
  }

  /** Code to name to code is the identity on the class codes. */
  lemma CodeNameCode(code: string)
    requires code in Codes
    ensures MapApiEmotionToDataset(DetectorName(code)) == code
  {
  }

  /** Two table names never share a class code. */
  lemma MapInjective(a: string, b: string)
    requires a in EmotionMap && b in EmotionMap
    requires MapApiEmotionToDataset(a) == MapApiEmotionToDataset(b)
    ensures a == b
  {
    NameCodeName(a);
    NameCodeName(b);
  }

  /** Class "3" is reached from the name "fear" and from no other name, so
      a name spelled differently, such as "fearful", falls through to the
      default "0". */
  lemma FearOnlyByExactName(name: string)
    ensures MapApiEmotionToDataset(name) == "3" <==> name == "fear"
    ensures MapApiEmotionToDataset("fearful") == Neutral
  {
    if MapApiEmotionToDataset(name) == "3" {
      assert name in EmotionMap;
      NameCodeName(name);
    }
  }

  /** Index `i` holds a maximal score and every later key scores strictly
      less: the key `reduce` settles on, since a tie goes to the later key. */
  ghost predicate LastMaximum(s: seq<Score>, i: int) {
    && 0 <= i < |s|
    && (forall j :: 0 <= j < |s| ==> s[j].value <= s[i].value)
    && (forall j :: i < j < |s| ==> s[j].value < s[i].value)
  }

  /** At most one index is the last maximum. */
  lemma LastMaximumUnique(s: seq<Score>, i: int, k: int)
    requires LastMaximum(s, i) && LastMaximum(s, k)
    ensures i == k
  {
    assert s[k].value == s[i].value;
  }

  /** `Object.keys(emotions).reduce((a, b) => emotions[a] > emotions[b] ? a : b)`,
      as the position of the key it returns; `reduce` without an initial
      value throws on an empty key list. */
  function ReduceToMax(s: seq<Score>): (i: nat)
    requires |s| > 0
    ensures LastMaximum(s, i)
    decreases |s|
  {
    if |s| == 1 then 0
    else
      var a := ReduceToMax(s[..|s| - 1]);
      var b := |s| - 1;
      if s[a].value > s[b].value then a else b
  }

  /** `getMostProminentEmotion`: "0" without a face; otherwise the class code
      of the first face's last maximal expression. */
  function GetMostProminentEmotion(detections: seq<Detection>): (code: string)
    requires |detections| > 0 ==> |detections[0].expressions| > 0
    ensures code in Codes
    ensures |detections| == 0 ==> code == Neutral
    ensures |detections| > 0 ==>
      exists i :: LastMaximum(detections[0].expressions, i)
        && code == MapApiEmotionToDataset(detections[0].expressions[i].name)
  {
    if |detections| > 0 then
      var emotions := detections[0].expressions;
      var maxEmotion := emotions[ReduceToMax(emotions)].name;
      MapApiEmotionToDataset(maxEmotion)
    else
      Neutral
  }

  /** A face whose scores have a unique maximum resolves to the class of
      that expression, wherever it stands in key order. */
  lemma UniqueMaximumResolves(detections: seq<Detection>, i: nat)
    requires |detections| > 0
    requires i < |detections[0].expressions|
    requires forall j :: 0 <= j < |detections[0].expressions| && j != i ==>
      detections[0].expressions[j].value < detections[0].expressions[i].value
    ensures GetMostProminentEmotion(detections) == MapApiEmotionToDataset(detections[0].expressions[i].name)
  {
    var e := detections[0].expressions;
    assert LastMaximum(e, i);
    LastMaximumUnique(e, i, ReduceToMax(e));
  }
}
