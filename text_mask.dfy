/** The text-mask compositor of `displayVideoText`: the sample lines are laid
    out one under another in an off-screen buffer, and every canvas pixel
    whose off-screen alpha is zero is made transparent. Pixel buffers are RGBA
    byte arrays, four bytes per pixel, alpha at offset 3. */
module TextMask {

  /** One byte of a pixel buffer. */
  type Byte = x: int | 0 <= x < 256

  const BytesPerPixel: nat := 4
  const AlphaOffset: nat := 3

  /** First baseline and the step between lines. */
  const TopMargin: int := 20
  const LineStep: int := 15

  /** A `pg.text(dialogue, x, y)` call. */
  datatype TextCall = TextCall(text: string, x: int, y: int)

  /** Baseline of the k-th line. */
  function LineY(k: nat): int {
    TopMargin + LineStep * k
  }

  /** The `forEach` over the displayed lines: line k is drawn at the left edge
      at height 20 + 15 k, so consecutive lines are 15 apart and in order. */
  method LayoutLines(dialogues: seq<string>) returns (calls: seq<TextCall>)
    ensures |calls| == |dialogues|
    ensures forall k :: 0 <= k < |calls| ==> calls[k] == TextCall(dialogues[k], 0, LineY(k))
  {
    calls := [];
    var y := TopMargin;
    var k := 0;
    while k < |dialogues|
      invariant 0 <= k <= |dialogues|
      invariant |calls| == k && y == LineY(k)
      invariant forall j :: 0 <= j < k ==> calls[j] == TextCall(dialogues[j], 0, LineY(j))
    {
      calls := calls + [TextCall(dialogues[k], 0, y)];
      y := y + LineStep;
      k := k + 1;
    }
  }

  /** The byte at `j` is an alpha byte. */
  predicate IsAlpha(j: int) {
    j % BytesPerPixel == AlphaOffset
  }

  /** `pg.pixels[j] !== 0` is false: the text buffer has that byte and it is
      zero (a read past its end is `undefined`, which is not 0). */
  predicate TextHides(text: seq<Byte>, j: int) {
    0 <= j < |text| && text[j] == 0
  }

  /** The canvas after the mask: alpha bytes of hidden pixels zeroed, every
      other byte as it was. */
  function Masked(pixels: seq<Byte>, text: seq<Byte>): seq<Byte>
  {
    seq(|pixels|, j requires 0 <= j < |pixels| => if IsAlpha(j) && TextHides(text, j) then 0 else pixels[j])
  }

  /** Where the text buffer's alpha is 0, the output alpha is 0; the colour
      bytes never change; alpha is kept wherever the text buffer's alpha is
      non-zero. */
  lemma MaskEffect(pixels: seq<Byte>, text: seq<Byte>, j: nat)
    requires j < |pixels|
    ensures |Masked(pixels, text)| == |pixels|
    ensures IsAlpha(j) && TextHides(text, j) ==> Masked(pixels, text)[j] == 0
    ensures !IsAlpha(j) ==> Masked(pixels, text)[j] == pixels[j]
    ensures !TextHides(text, j) ==> Masked(pixels, text)[j] == pixels[j]
  {
  }

  /** Applying the mask a second time changes nothing. */
  lemma MaskIdempotent(pixels: seq<Byte>, text: seq<Byte>)
    ensures Masked(Masked(pixels, text), text) == Masked(pixels, text)
  {
  }

  /** Over equal-sized buffers, a pixel stays visible exactly when the text
      buffer's alpha there is non-zero (or it was already transparent). */
  lemma MaskTracesText(pixels: seq<Byte>, text: seq<Byte>, p: nat)
    requires |pixels| == |text| && |pixels| % BytesPerPixel == 0
    requires p < |pixels| / BytesPerPixel
    ensures var a := BytesPerPixel * p + AlphaOffset;
      a < |pixels| && (Masked(pixels, text)[a] != 0 <==> text[a] != 0 && pixels[a] != 0)
  {
    var a := BytesPerPixel * p + AlphaOffset;
    assert a % BytesPerPixel == AlphaOffset;
  }

  /** The mask loop: every fourth byte from offset 3, zeroed when the text
      buffer's alpha there is zero. The loop reads each text alpha before any
      write could reach it, so the result is the same even if both arrays
      are one. */
  method ApplyTextMask(pixels: array<Byte>, textPixels: array<Byte>)
    modifies pixels
    ensures pixels[..] == Masked(old(pixels[..]), old(textPixels[..]))
  {
    ghost var video := pixels[..];
    ghost var text := textPixels[..];
    var i := 0;
    while i < pixels.Length
      invariant 0 <= i <= pixels.Length + 3 && i % BytesPerPixel == 0
      invariant forall j :: 0 <= j < pixels.Length ==>
        pixels[j] == (if j < i then Masked(video, text)[j] else video[j])
      invariant forall j :: i <= j < textPixels.Length ==> textPixels[j] == text[j]
    {
      if i + 3 < textPixels.Length && textPixels[i + 3] == 0 {
        // make the pixel transparent where there is no text
        if i + 3 < pixels.Length {
          pixels[i + 3] := 0;
        }
      }
      i := i + 4;
    }
  }
}
