/**
 * Turning a decoded RGB image into the 4-dimensional input tensor of a model:
 * resize to the target size, scale each 8-bit channel by 1/255, and add a
 * leading batch dimension of size 1.
 */
module Preprocessing {
  import opened Wrappers

  /** An 8-bit channel intensity. */
  newtype byte = x: int | 0 <= x < 256

  datatype Rgb = Rgb(r: byte, g: byte, b: byte)

  /** A decoded image as rows of pixels (height rows of width pixels). */
  type Grid = seq<seq<Rgb>>

  /** A target size, given as (width, height) like the imaging library does. */
  datatype Size = Size(width: nat, height: nat)

  const DefaultSize: Size := Size(224, 224)

  /**
   * The imaging library's resize. It is not visible here; it may raise on an
   * image that cannot be decoded, which is `None`.
   */
  type Resampler = (Grid, Size) -> Option<Grid>

  /** A rank-3 array [height, width, channels]. */
  type Array3 = seq<seq<seq<real>>>

  /** A rank-4 tensor [batch, height, width, channels]. */
  type Tensor = seq<Array3>

  predicate IsGrid(g: Grid, size: Size) {
    |g| == size.height && forall y :: 0 <= y < |g| ==> |g[y]| == size.width
  }

  /** What the model assumes of the library: a resized image has exactly the requested size. */
  ghost predicate Resamples(resize: Resampler) {
    forall image: Grid, size: Size :: resize(image, size).Some? ==> IsGrid(resize(image, size).value, size)
  }

  predicate HasShape(t: Tensor, batch: nat, height: nat, width: nat, channels: nat) {
    && |t| == batch
    && (forall i :: 0 <= i < |t| ==> |t[i]| == height)
    && (forall i, y :: 0 <= i < |t| && 0 <= y < |t[i]| ==> |t[i][y]| == width)
    && (forall i, y, x :: 0 <= i < |t| && 0 <= y < |t[i]| && 0 <= x < |t[i][y]| ==> |t[i][y][x]| == channels)
  }

  predicate InUnitRange(t: Tensor) {
    forall i, y, x, c :: 0 <= i < |t| && 0 <= y < |t[i]| && 0 <= x < |t[i][y]| && 0 <= c < |t[i][y][x]| ==>
      0.0 <= t[i][y][x][c] <= 1.0
  }

  /** One channel intensity as a float: v / 255. */
  function Scale(v: byte): (x: real)
    ensures 0.0 <= x <= 1.0
    ensures x * 255.0 == v as real
    ensures v == 0 <==> x == 0.0
    ensures v == 255 <==> x == 1.0
  {
    v as real / 255.0
  }

  /** The channel values of one pixel, in R, G, B order. */
  function Channels(p: Rgb): (c: seq<real>)
    ensures |c| == 3
    ensures c[0] * 255.0 == p.r as real && c[1] * 255.0 == p.g as real && c[2] * 255.0 == p.b as real
    ensures forall k :: 0 <= k < |c| ==> 0.0 <= c[k] <= 1.0
  {
    [Scale(p.r), Scale(p.g), Scale(p.b)]
  }

  /** The image as a float array [height, width, 3], each intensity divided by 255. */
  function ToArray(g: Grid): (a: Array3)
    ensures |a| == |g|
    ensures forall y :: 0 <= y < |g| ==> |a[y]| == |g[y]|
    ensures forall y, x :: 0 <= y < |g| && 0 <= x < |g[y]| ==>
      && |a[y][x]| == 3
      && a[y][x][0] * 255.0 == g[y][x].r as real
      && a[y][x][1] * 255.0 == g[y][x].g as real
      && a[y][x][2] * 255.0 == g[y][x].b as real
    ensures forall y, x, c :: 0 <= y < |a| && 0 <= x < |a[y]| && 0 <= c < |a[y][x]| ==> 0.0 <= a[y][x][c] <= 1.0
  {
    seq(|g|, y requires 0 <= y < |g| => seq(|g[y]|, x requires 0 <= x < |g[y]| => Channels(g[y][x])))
  }

  /**
   * Resize to `size`, convert to floats in [0,1] and add the batch dimension.
   * Fails exactly when the resize fails; on success the single batch entry is
   * the scaled resized image.
   */
  function Preprocess(resize: Resampler, image: Grid, size: Size): (t: Option<Tensor>)
    ensures t.Some? <==> resize(image, size).Some?
    ensures t.Some? ==> |t.value| == 1 && t.value[0] == ToArray(resize(image, size).value)
  {
    match resize(image, size)
    case None => None
    case Some(resized) => Some([ToArray(resized)])
  }

  /**
   * For a resampler that honours the requested size, a successful preprocessing
   * yields shape [1, height, width, 3] with every value in [0,1].
   */
  lemma PreprocessShape(resize: Resampler, image: Grid, size: Size)
    requires Resamples(resize)
    requires resize(image, size).Some?
    ensures Preprocess(resize, image, size).Some?
    ensures HasShape(Preprocess(resize, image, size).value, 1, size.height, size.width, 3)
    ensures InUnitRange(Preprocess(resize, image, size).value)
  {
  }

  /** The default size gives the tensor shape [1, 224, 224, 3]. */
  lemma DefaultShape(resize: Resampler, image: Grid)
    requires Resamples(resize)
    requires resize(image, DefaultSize).Some?
    ensures HasShape(Preprocess(resize, image, DefaultSize).value, 1, 224, 224, 3)
  {
  }
}
