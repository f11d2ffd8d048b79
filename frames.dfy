/**
 * Video frames as numpy holds them: an explicit shape (height, width,
 * channels) over rows of pixels of unsigned 8-bit samples, and Python's
 * basic slicing `s[a:b]`, which is how a perspective is cut out of a frame.
 */
module Frames {
  newtype byte = b: int | 0 <= b < 256

  /** The samples of one pixel, one per channel (three for BGR video). */
  type Pixel = seq<byte>

  datatype Image = Image(height: nat, width: nat, channels: nat, rows: seq<seq<Pixel>>)
  {
    /** The samples really have the shape the image declares. */
    ghost predicate Valid() {
      && |rows| == height
      && (forall i | 0 <= i < |rows| :: |rows[i]| == width)
      && (forall i, j | 0 <= i < |rows| && 0 <= j < |rows[i]| :: |rows[i][j]| == channels)
    }

    /** numpy's `size`: the number of samples. */
    function Size(): nat {
      height * (width * channels)
    }
  }

  /** The samples of one row, in numpy's C order. */
  function RowSamples(row: seq<Pixel>): seq<byte> {
    if row == [] then [] else row[0] + RowSamples(row[1..])
  }

  /** The samples of rows of pixels, in numpy's C order. */
  function Samples(rows: seq<seq<Pixel>>): seq<byte> {
    if rows == [] then [] else RowSamples(rows[0]) + Samples(rows[1..])
  }

  lemma {:induction false} RowSamplesLength(row: seq<Pixel>, channels: nat)
    requires forall j | 0 <= j < |row| :: |row[j]| == channels
    ensures |RowSamples(row)| == |row| * channels
  {
    if row != [] {
      RowSamplesLength(row[1..], channels);
    }
  }

  lemma {:induction false} RowsSamplesLength(rows: seq<seq<Pixel>>, width: nat, channels: nat)
    requires forall i | 0 <= i < |rows| :: |rows[i]| == width
    requires forall i, j | 0 <= i < |rows| && 0 <= j < |rows[i]| :: |rows[i][j]| == channels
    ensures |Samples(rows)| == |rows| * (width * channels)
  {
    if rows != [] {
      RowSamplesLength(rows[0], channels);
      RowsSamplesLength(rows[1..], width, channels);
      assert |rows| * (width * channels) == width * channels + (|rows| - 1) * (width * channels);
    }
  }

  /** A well-formed image has exactly `Size()` samples. */
  lemma SamplesLength(img: Image)
    requires img.Valid()
    ensures |Samples(img.rows)| == img.Size()
  {
    RowsSamplesLength(img.rows, img.width, img.channels);
  }

  /** Python's normalisation of one slice bound against a sequence of length n. */
  function SliceBound(i: int, n: nat): (r: nat)
    ensures r <= n
    ensures 0 <= i <= n ==> r == i
  {
    if i < 0 then (if i + n < 0 then 0 else i + n)
    else if i > n then n
    else i
  }

  /** The length of `s[a:b]` for a sequence of length n. */
  function SliceLength(a: int, b: int, n: nat): nat {
    var lo, hi := SliceBound(a, n), SliceBound(b, n);
    if lo < hi then hi - lo else 0
  }

  /**
   * Python's `s[a:b]`: a negative bound counts from the end, both bounds are
   * clamped to the sequence, and a start past the stop gives nothing.
   */
  function PySlice<T>(s: seq<T>, a: int, b: int): (r: seq<T>)
    ensures |r| == SliceLength(a, b, |s|)
    ensures forall k | 0 <= k < |r| :: r[k] == s[SliceBound(a, |s|) + k]
    ensures 0 <= a <= b <= |s| ==> r == s[a..b]
  {
    var lo, hi := SliceBound(a, |s|), SliceBound(b, |s|);
    if lo < hi then s[lo..hi] else []
  }

  /** A negative start wraps around: `s[-1:len(s)]` is the last element, not an empty slice. */
  lemma NegativeStartWraps<T>(s: seq<T>)
    requires |s| > 0
    ensures PySlice(s, -1, |s|) == [s[|s| - 1]]
  {
    assert SliceBound(-1, |s|) == |s| - 1;
  }

  /** numpy's `img[y0:y1, x0:x1]`: the rows, then the columns of each row. */
  function Crop(img: Image, y0: int, y1: int, x0: int, x1: int): (r: Image)
    ensures r.channels == img.channels
    ensures r.height == SliceLength(y0, y1, img.height) && r.width == SliceLength(x0, x1, img.width)
  {
    var band := PySlice(img.rows, y0, y1);
    Image(SliceLength(y0, y1, img.height), SliceLength(x0, x1, img.width), img.channels,
          seq(|band|, i requires 0 <= i < |band| => PySlice(band[i], x0, x1)))
  }

  /**
   * Cropping a well-formed image gives a well-formed image, and with bounds
   * inside the image pixel (i, j) of the crop is pixel (y0 + i, x0 + j).
   */
  lemma CropValid(img: Image, y0: int, y1: int, x0: int, x1: int)
    requires img.Valid()
    ensures Crop(img, y0, y1, x0, x1).Valid()
    ensures 0 <= y0 <= y1 <= img.height && 0 <= x0 <= x1 <= img.width ==>
      var r := Crop(img, y0, y1, x0, x1);
      forall i, j | 0 <= i < r.height && 0 <= j < r.width :: r.rows[i][j] == img.rows[y0 + i][x0 + j]
  {
    var band := PySlice(img.rows, y0, y1);
    var r := Crop(img, y0, y1, x0, x1);
    forall i | 0 <= i < |band| ensures |band[i]| == img.width {
      assert band[i] == img.rows[SliceBound(y0, img.height) + i];
    }
    assert |r.rows| == r.height;
    forall i | 0 <= i < |r.rows| ensures |r.rows[i]| == r.width {
      assert r.rows[i] == PySlice(band[i], x0, x1);
    }
  }
}
