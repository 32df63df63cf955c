/** The masking step of `remove_white_background`: the image, converted to
    RGBA, is a height x width x 4 array of 8-bit channel values; every pixel
    whose red, green and blue values all exceed the threshold gets alpha 0,
    and nothing else changes. Opening, resizing and saving the image are
    outside the model. */
module WhiteBackground {

  /** The value of one 8-bit channel. */
  newtype byte = x: int | 0 <= x < 256

  /** One RGBA pixel. */
  datatype Pixel = Pixel(r: byte, g: byte, b: byte, a: byte)

  /** An image as rows of pixels. */
  type Image = seq<seq<Pixel>>

  /** The mask: all three colour channels strictly above the threshold. */
  predicate IsWhite(p: Pixel, threshold: int) {
    p.r as int > threshold && p.g as int > threshold && p.b as int > threshold
  }

  /** What the step does to one pixel. */
  function MaskPixel(p: Pixel, threshold: int): (q: Pixel)
    ensures q.r == p.r && q.g == p.g && q.b == p.b
    ensures IsWhite(p, threshold) ==> q.a == 0
    ensures !IsWhite(p, threshold) ==> q == p
  {
    if IsWhite(p, threshold) then p.(a := 0) else p
  }

  /** A channel equal to the threshold does not count as white, and a pixel
      is made transparent exactly when it is white or already transparent. */
  lemma MaskPixelCases(p: Pixel, threshold: int)
    ensures (p.r as int == threshold || p.g as int == threshold || p.b as int == threshold)
            ==> MaskPixel(p, threshold) == p
    ensures MaskPixel(p, threshold).a == 0 <==> IsWhite(p, threshold) || p.a == 0
  {
  }

  /** The mask is computed from the colour channels only, which the step
      leaves alone, so a second application changes nothing. */
  lemma MaskPixelIdempotent(p: Pixel, threshold: int)
    ensures IsWhite(MaskPixel(p, threshold), threshold) == IsWhite(p, threshold)
    ensures MaskPixel(MaskPixel(p, threshold), threshold) == MaskPixel(p, threshold)
  {
  }

  /** The step applied to every pixel of an image. */
  function MaskImage(img: Image, threshold: int): (r: Image)
    ensures |r| == |img|
    ensures forall i :: 0 <= i < |img| ==> |r[i]| == |img[i]|
    ensures forall i, j :: 0 <= i < |img| && 0 <= j < |img[i]| ==>
              r[i][j] == MaskPixel(img[i][j], threshold)
  {
    seq(|img|, i requires 0 <= i < |img| =>
      seq(|img[i]|, j requires 0 <= j < |img[i]| => MaskPixel(img[i][j], threshold)))
  }

  /** Masking twice is masking once. */
  lemma MaskImageIdempotent(img: Image, threshold: int)
    ensures MaskImage(MaskImage(img, threshold), threshold) == MaskImage(img, threshold)
  {
    var once := MaskImage(img, threshold);
    var twice := MaskImage(once, threshold);
    forall i | 0 <= i < |img|
      ensures twice[i] == once[i]
    {
      forall j | 0 <= j < |img[i]|
        ensures twice[i][j] == once[i][j]
      {
        MaskPixelIdempotent(img[i][j], threshold);
      }
    }
  }

  /** The pixel at row `i`, column `j` of an RGBA array. */
  function PixelAt(data: array3<byte>, i: nat, j: nat): Pixel
    requires i < data.Length0 && j < data.Length1 && data.Length2 == 4
    reads data
  {
    Pixel(data[i, j, 0], data[i, j, 1], data[i, j, 2], data[i, j, 3])
  }

  /** The array read as an image. */
  function ImageOf(data: array3<byte>): (img: Image)
    requires data.Length2 == 4
    reads data
    ensures |img| == data.Length0
    ensures forall i :: 0 <= i < data.Length0 ==> |img[i]| == data.Length1
    ensures forall i, j :: 0 <= i < data.Length0 && 0 <= j < data.Length1 ==>
              img[i][j] == PixelAt(data, i, j)
  {
    seq(data.Length0, i reads data requires 0 <= i < data.Length0 =>
      seq(data.Length1, j reads data requires 0 <= j < data.Length1 => PixelAt(data, i, j)))
  }

  /** The step as the source writes it: the mask is computed for the whole
      array first, then the alpha channel is overwritten where the mask
      holds. The array keeps its dimensions; its new contents are the masked
      image of the old contents. */
  method RemoveWhiteBackground(data: array3<byte>, threshold: int)
    requires data.Length2 == 4
    modifies data
    ensures ImageOf(data) == MaskImage(old(ImageOf(data)), threshold)
  {
    ghost var before := ImageOf(data);
    var whiteMask := new bool[data.Length0, data.Length1];
    forall i, j | 0 <= i < data.Length0 && 0 <= j < data.Length1 {
      whiteMask[i, j] := data[i, j, 0] as int > threshold
                      && data[i, j, 1] as int > threshold
                      && data[i, j, 2] as int > threshold;
    }
    assert forall i, j :: 0 <= i < data.Length0 && 0 <= j < data.Length1 ==>
      whiteMask[i, j] == IsWhite(before[i][j], threshold);
    forall i, j | 0 <= i < data.Length0 && 0 <= j < data.Length1 {
      data[i, j, 3] := if whiteMask[i, j] then 0 else data[i, j, 3];
    }
    ghost var after, expected := ImageOf(data), MaskImage(before, threshold);
    forall i | 0 <= i < data.Length0
      ensures after[i] == expected[i]
    {
      forall j | 0 <= j < data.Length1
        ensures after[i][j] == expected[i][j]
      {
        assert after[i][j] == PixelAt(data, i, j);
      }
    }
  }
}
