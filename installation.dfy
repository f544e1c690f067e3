/** The sketch's global state and the operations that update it in place:
    loading the dataset, resampling the displayed lines, the text mask and
    pacing step of each rendered frame, and the key handler. The camera, the
    detector and the text renderer are outside the model: the detector's
    latest result, the canvas and text buffers, the clock readings and the
    random draws are parameters. */
module Installation {
  import opened PropertyKeys
  import opened DatasetIndex
  import opened EmotionResolver
  import opened DialogueSampler
  import opened RefreshPacer
  import ModeToggles
  import opened TextMask

  class Sketch {
    /** The indexed dataset, set once when it has loaded. */
    const dataset: EmotionIndex
    var dialoguesToDisplay: seq<string>
    var changeInterval: int
    var lastChangeTime: real
    var debugingMode: bool
    var showcaseMode: bool
    /** The browser's fullscreen state. */
    var fullscreenOn: bool

    ghost predicate Valid()
      reads this
    {
      && PacingValid(PacingState(), dataset)
      && !(debugingMode && showcaseMode)
    }

    function PacingState(): Pacing
      reads this
    {
      Pacing(lastChangeTime, changeInterval, dialoguesToDisplay)
    }

    function Modes(): ModeToggles.Modes
      reads this
    {
      ModeToggles.Modes(debugingMode, showcaseMode, fullscreenOn)
    }

    /** The globals' initial values and the `loadJSON` callback of `preload`:
        index the rows, then sample with no emotion class, which looks up the
        key "undefined". */
    constructor Preload(rows: seq<Row>, rand: seq<real>)
      requires |rand| == NumberOfLines && AllRandom(rand)
      ensures Valid()
      ensures dataset == Index(rows)
      ensures dialoguesToDisplay == Sample(dataset, UndefinedKey, rand)
      ensures changeInterval == BaseInterval && lastChangeTime == 0.0
      ensures Modes() == ModeToggles.Initial
    {
      var grouped := PreprocessDataset(rows);
      dataset := grouped;
      dialoguesToDisplay := [];
      changeInterval := BaseInterval;
      lastChangeTime := 0.0;
      debugingMode := false;
      showcaseMode := false;
      fullscreenOn := false;
      new;
      SelectRandomDialogues(UndefinedKey, rand);
    }

    /** `selectRandomDialogues`: discard the displayed lines and push
        `numberOfLines` new ones, each a pool member or the fallback. */
    method SelectRandomDialogues(emotionClass: string, rand: seq<real>)
      requires |rand| == NumberOfLines && AllRandom(rand)
      modifies this`dialoguesToDisplay
      ensures dialoguesToDisplay == Sample(dataset, emotionClass, rand)
    {
      dialoguesToDisplay := [];
      var present := emotionClass in dataset;
      var dialogues := if present then dataset[emotionClass] else [];
      for i := 0 to NumberOfLines
        invariant dialoguesToDisplay == Sample(dataset, emotionClass, rand[..i])
      {
        SampleSnoc(dataset, emotionClass, rand, i);
        if present && |dialogues| > 0 {
          var randomIndex := RandomIndex(rand[i], |dialogues|);
          dialoguesToDisplay := dialoguesToDisplay + [dialogues[randomIndex]];
        } else {
          dialoguesToDisplay := dialoguesToDisplay + [Fallback];
        }
      }
      assert rand[..NumberOfLines] == rand;
    }

    /** `adjustChangeInterval` for the current detections. */
    method AdjustChangeInterval(detections: seq<Detection>)
      modifies this`changeInterval
      ensures changeInterval == AdjustedInterval(|detections|)
    {
      var numFaces := |detections|;
      changeInterval := AdjustedInterval(numFaces);
    }

    /** `displayVideoText`: lay the displayed lines out in the off-screen
        buffer, then mask the canvas with that buffer's alpha. `textPixels`
        is the buffer as the text renderer leaves it for these lines. */
    method DisplayVideoText(pixels: array<Byte>, textPixels: array<Byte>) returns (calls: seq<TextCall>)
      modifies pixels
      ensures |calls| == |dialoguesToDisplay|
      ensures forall k :: 0 <= k < |calls| ==> calls[k] == TextCall(dialoguesToDisplay[k], 0, LineY(k))
      ensures pixels[..] == Masked(old(pixels[..]), old(textPixels[..]))
    {
      calls := LayoutLines(dialoguesToDisplay);
      ApplyTextMask(pixels, textPixels);
    }

    /** `renderCanvas` on a canvas that already holds the scaled video frame:
        mask it with the current lines, then, with a face in view, resample
        when more than the current interval has passed and recompute the
        interval from the face count. */
    method RenderCanvas(detections: seq<Detection>, checkTime: real, stampTime: real, rand: seq<real>,
                        pixels: array<Byte>, textPixels: array<Byte>) returns (calls: seq<TextCall>)
      requires Valid()
      requires |rand| == NumberOfLines && AllRandom(rand)
      requires |detections| > 0 ==> |detections[0].expressions| > 0
      modifies this`dialoguesToDisplay, this`lastChangeTime, this`changeInterval, pixels
      ensures Valid()
      ensures PacingState() == RenderStep(old(PacingState()), dataset, detections, checkTime, stampTime, rand)
      ensures |calls| == NumberOfLines
      ensures forall k :: 0 <= k < |calls| ==> calls[k] == TextCall(old(dialoguesToDisplay)[k], 0, LineY(k))
      ensures pixels[..] == Masked(old(pixels[..]), old(textPixels[..]))
    {
      calls := DisplayVideoText(pixels, textPixels);
      RenderStepKeepsValid(PacingState(), dataset, detections, checkTime, stampTime, rand);
      if |detections| > 0 {
        if checkTime - lastChangeTime > changeInterval as real {
          var mostProminentEmotion := GetMostProminentEmotion(detections);
          SelectRandomDialogues(mostProminentEmotion, rand);
          lastChangeTime := stampTime;
        }
        AdjustChangeInterval(detections);
      }
    }

    /** `keyPressed`. */
    method KeyPressed(key: string)
      requires Valid()
      modifies this`debugingMode, this`showcaseMode, this`fullscreenOn
      ensures Valid()
      ensures Modes() == ModeToggles.KeyPressed(old(Modes()), key)
    {
      if key == "D" || key == "d" {
        debugingMode := !debugingMode;
        showcaseMode := false;
        if debugingMode && fullscreenOn {
          fullscreenOn := false;
        }
      } else if key == "S" || key == "s" {
        showcaseMode := !showcaseMode;
        debugingMode := false;
        fullscreenOn := showcaseMode;
      }
    }
  }

  /** After a resample, the displayed lines are the fallback sentence or
      utterances that the dataset labels with the resolved emotion, a label
      in 0..6. */
  lemma ResampledLinesMatchFace(rows: seq<Row>, detections: seq<Detection>, rand: seq<real>)
    requires AllRandom(rand)
    requires |detections| > 0 ==> |detections[0].expressions| > 0
    ensures var code := GetMostProminentEmotion(detections);
      var lines := Sample(Index(rows), code, rand);
      (exists k :: 0 <= k <= 6 && LabelKey(Some(k)) == code)
      && forall i :: 0 <= i < |lines| ==>
        lines[i] == Fallback || lines[i] in Utterances(Turns(rows), code)
  {
    var code := GetMostProminentEmotion(detections);
    CodeIsLabelKey(code);
    if code in Index(rows) {
      IndexPools(rows, code);
    }
  }

  /** When every turn of the dataset is labelled, the lines shown before
      any face is seen are all the fallback sentence. */
  lemma PreloadShowsFallback(rows: seq<Row>, rand: seq<real>)
    requires AllRandom(rand)
    requires forall j :: 0 <= j < |rows| ==> |rows[j].dialog| <= |rows[j].emotion|
    ensures forall i :: 0 <= i < |rand| ==> Sample(Index(rows), UndefinedKey, rand)[i] == Fallback
  {
    FullyLabelledHasNoUndefined(rows);
  }
}
