/** The region-of-interest selector: which rectangle of a camera frame is
    handed to the decoder. Pure integer geometry over a decode configuration
    that is fixed when the analyzer is built. */
module AreaRect {
  import opened Common

  /** android.graphics.Rect: edges, with width = right - left and
      height = bottom - top. */
  datatype Rect = Rect(left: int, top: int, right: int, bottom: int) {
    function Width(): int { right - left }
    function Height(): int { bottom - top }
  }

  /** The rectangle actually analyzed, in frame pixel coordinates. */
  datatype Region = Region(left: int, top: int, width: int, height: int)

  /** The getters of a DecodeConfig that the analyzer reads. */
  datatype DecodeConfig = DecodeConfig(
    hints: HintSet,
    multiDecode: bool,
    fullAreaScan: bool,
    analyzeAreaRect: Option<Rect>,
    areaRectRatio: real,
    horizontalOffset: int,
    verticalOffset: int)

  /** The analyzer's fields, set once by its constructor. */
  datatype Analyzer = Analyzer(
    config: Option<DecodeConfig>,
    hints: HintSet,
    multiDecode: bool,
    ratio: real,
    horizontalOffset: int,
    verticalOffset: int)

  /** The constructor: a present config is copied field by field; a null
      config leaves the defaults (the default ratio and default hints come
      from DecodeConfig and DecodeFormatManager, so they are parameters). */
  function NewAnalyzer(config: Option<DecodeConfig>, defaultRatio: real, defaultHints: HintSet): (a: Analyzer)
    ensures a.config == config
    ensures config.None? ==>
      a.hints == defaultHints && a.multiDecode && a.ratio == defaultRatio
      && a.horizontalOffset == 0 && a.verticalOffset == 0
    ensures config.Some? ==>
      a.hints == config.value.hints && a.multiDecode == config.value.multiDecode
      && a.ratio == config.value.areaRectRatio
      && a.horizontalOffset == config.value.horizontalOffset
      && a.verticalOffset == config.value.verticalOffset
  {
    match config
    case None => Analyzer(None, defaultHints, true, defaultRatio, 0, 0)
    case Some(c) => Analyzer(config, c.hints, c.multiDecode, c.areaRectRatio, c.horizontalOffset, c.verticalOffset)
  }

  /** Side of the centred square: `(int)(min(width, height) * ratio)`. */
  function SquareSide(width: int, height: int, ratio: real): int
  {
    TruncReal(Min(width, height) as real * ratio)
  }

  predicate UsesFullArea(a: Analyzer)
  {
    a.config.Some? && a.config.value.fullAreaScan
  }

  predicate UsesExplicitRect(a: Analyzer)
  {
    a.config.Some? && !a.config.value.fullAreaScan && a.config.value.analyzeAreaRect.Some?
  }

  /** The region `analyze(data, width, height)` delegates to. */
  function AnalyzeArea(a: Analyzer, width: int, height: int): (r: Region)
    ensures UsesFullArea(a) ==> r == Region(0, 0, width, height)
    ensures UsesExplicitRect(a) ==>
      var rect := a.config.value.analyzeAreaRect.value;
      r == Region(rect.left, rect.top, rect.Width(), rect.Height())
    ensures !UsesFullArea(a) && !UsesExplicitRect(a) ==>
      r.width == r.height == SquareSide(width, height, a.ratio)
      && r.left == TruncDiv(width - r.width, 2) + a.horizontalOffset
      && r.top == TruncDiv(height - r.height, 2) + a.verticalOffset
  {
    if a.config.Some? && a.config.value.fullAreaScan then
      Region(0, 0, width, height)
    else if a.config.Some? && a.config.value.analyzeAreaRect.Some? then
      var rect := a.config.value.analyzeAreaRect.value;
      Region(rect.left, rect.top, rect.Width(), rect.Height())
    else
      var size := SquareSide(width, height, a.ratio);
      Region(TruncDiv(width - size, 2) + a.horizontalOffset,
             TruncDiv(height - size, 2) + a.verticalOffset,
             size, size)
  }

  /** `analyze(data, width, height)`: there is no error path; the selected
      region is always passed to the region decoder (the abstract
      seven-argument `analyze`, which is not part of this model). */
  function Analyze(a: Analyzer, data: seq<bv8>, width: int, height: int,
                   decodeRegion: (seq<bv8>, int, int, Region) -> Option<DecodeResult>): (r: Option<DecodeResult>)
    ensures UsesFullArea(a) ==> r == decodeRegion(data, width, height, Region(0, 0, width, height))
    ensures UsesExplicitRect(a) ==>
      var rect := a.config.value.analyzeAreaRect.value;
      r == decodeRegion(data, width, height, Region(rect.left, rect.top, rect.Width(), rect.Height()))
    ensures !UsesFullArea(a) && !UsesExplicitRect(a) ==>
      var size := SquareSide(width, height, a.ratio);
      r == decodeRegion(data, width, height,
                        Region(TruncDiv(width - size, 2) + a.horizontalOffset,
                               TruncDiv(height - size, 2) + a.verticalOffset, size, size))
  {
    decodeRegion(data, width, height, AnalyzeArea(a, width, height))
  }

  /** The full-area flag wins over an explicit rectangle, the ratio and the
      offsets. */
  lemma FullAreaIgnoresRectRatioAndOffsets(c: DecodeConfig, defaultRatio: real, defaultHints: HintSet, width: int, height: int)
    requires c.fullAreaScan
    ensures AnalyzeArea(NewAnalyzer(Some(c), defaultRatio, defaultHints), width, height) == Region(0, 0, width, height)
  {
  }

  /** With a null config the centred square is always used, with the
      default ratio and no offsets. */
  lemma NullConfigUsesDefaultSquare(defaultRatio: real, defaultHints: HintSet, width: int, height: int)
    ensures
      var r := AnalyzeArea(NewAnalyzer(None, defaultRatio, defaultHints), width, height);
      var size := SquareSide(width, height, defaultRatio);
      r == Region(TruncDiv(width - size, 2), TruncDiv(height - size, 2), size, size)
  {
  }

  /** The worked example: a 1000x2000 frame with ratio 0.5 and no offsets
      analyzes the 500x500 square at (250, 750). */
  lemma WorkedExample(hints: HintSet)
    ensures AnalyzeArea(NewAnalyzer(Some(DecodeConfig(hints, true, false, None, 0.5, 0, 0)), 0.5, hints), 1000, 2000)
            == Region(250, 750, 500, 500)
  {
    assert SquareSide(1000, 2000, 0.5) == 500;
  }

  /** A ratio above 1 makes `width - size` negative, and Java's truncating
      division then centres differently from a floor division: a 10x10
      frame with ratio 1.5 gives left = top = -2, not -3. */
  lemma OversizeRatioTruncates(hints: HintSet)
    ensures AnalyzeArea(NewAnalyzer(None, 1.5, hints), 10, 10) == Region(-2, -2, 15, 15)
    ensures (10 - 15) / 2 == -3
  {
    assert SquareSide(10, 10, 1.5) == 15;
  }

  /** With no offsets and 0 <= ratio <= 1 the computed square lies inside
      the frame. */
  lemma SquareInsideFrame(a: Analyzer, width: int, height: int)
    requires !UsesFullArea(a) && !UsesExplicitRect(a)
    requires a.horizontalOffset == 0 && a.verticalOffset == 0
    requires 0.0 <= a.ratio <= 1.0
    requires 0 <= width && 0 <= height
    ensures var r := AnalyzeArea(a, width, height);
      0 <= r.width == r.height
      && 0 <= r.left && r.left + r.width <= width
      && 0 <= r.top && r.top + r.height <= height
  {
    var size := SquareSide(width, height, a.ratio);
    SideWithinShorterSide(width, height, a.ratio);
    CentredMargins(width, size);
    CentredMargins(height, size);
  }

  /** A ratio in [0, 1] gives a side between 0 and the shorter frame side. */
  lemma SideWithinShorterSide(width: int, height: int, ratio: real)
    requires 0 <= width && 0 <= height && 0.0 <= ratio <= 1.0
    ensures 0 <= SquareSide(width, height, ratio) <= Min(width, height)
  {
    var mr := Min(width, height) as real;
    assert 0.0 <= mr;
    var x := mr * ratio;
    var rest := 1.0 - ratio;
    NonNegativeProduct(mr, ratio);
    NonNegativeProduct(mr, rest);
    assert mr * rest == mr - x;
  }

  lemma NonNegativeProduct(a: real, b: real)
    requires 0.0 <= a && 0.0 <= b
    ensures 0.0 <= a * b
  {
  }

  /** Centring `size` within `extent` leaves margins that differ by at
      most one pixel, the extra pixel going to the right (or bottom). */
  lemma CentredMargins(extent: int, size: int)
    requires 0 <= size <= extent
    ensures var left := TruncDiv(extent - size, 2);
      0 <= left && left + size <= extent
      && 0 <= (extent - size - left) - left <= 1
  {
  }

  /** The square branch centres the square: with no offsets, the margins
      on either side differ by at most one pixel. */
  lemma SquareIsCentred(a: Analyzer, width: int, height: int)
    requires !UsesFullArea(a) && !UsesExplicitRect(a)
    requires a.horizontalOffset == 0 && a.verticalOffset == 0
    requires 0.0 <= a.ratio <= 1.0
    requires 0 <= width && 0 <= height
    ensures var r := AnalyzeArea(a, width, height);
      0 <= (width - r.left - r.width) - r.left <= 1
      && 0 <= (height - r.top - r.height) - r.top <= 1
  {
    SquareInsideFrame(a, width, height);
    var size := SquareSide(width, height, a.ratio);
    CentredMargins(width, size);
    CentredMargins(height, size);
  }
}
