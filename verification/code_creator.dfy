/** Code generation: a bit matrix from the encoder is painted row by row into
    an ARGB pixel buffer (set bits in the code colour, clear bits white),
    optionally with a centred logo (QR codes) or the content as text under
    the bars (barcodes). The encoder and the drawing canvas are code this
    model cannot see: the encoder is a function parameter returning None
    for a WriterException, and canvas failures are a boolean parameter. */
module CodeCreator {
  import opened Common

  /** android.graphics.Color.WHITE (0xFFFFFFFF) and Color.BLACK
      (0xFF000000) as signed 32-bit ARGB values. */
  const White: int := -1
  const Black: int := -16777216

  /** The logo share used when the caller gives none. */
  const DefaultLogoRatio: real := 0.2
  /** The barcode text size used when the caller gives none. */
  const DefaultTextSize: int := 40

  /** ZXing's BitMatrix: its size and its `get(x, y)`. */
  datatype BitMatrix = BitMatrix(width: nat, height: nat, get: (nat, nat) -> bool)

  datatype ErrorCorrection = L | M | Q | H

  /** An encode-hint map (null when absent). */
  datatype EncodeHints = NullHints | HintMap(charset: Option<string>, errorCorrection: Option<ErrorCorrection>, margin: Option<int>)

  /** The map the QR overloads build: UTF-8, level H, a one-module margin. */
  const QrDefaultHints: EncodeHints := HintMap(Some("utf-8"), Some(H), Some(1))

  /** `encode(contents, format, width, height, hints)`; None is a
      WriterException. */
  type Writer = (string, BarcodeFormat, int, int, EncodeHints) -> Option<BitMatrix>

  /** A bitmap: a raster of ARGB pixels in row-major order, or a canvas
      drawing over another bitmap. */
  datatype Picture =
    | Raster(width: int, height: int, pixels: seq<int>)
      /** `base` drawn at the origin, then `logo` drawn at
          (`logoLeft`, `logoTop`) under a uniform `scale` about
          (`pivotX`, `pivotY`). */
    | WithLogo(width: int, height: int, base: Picture, logo: Picture,
               scale: real, pivotX: int, pivotY: int, logoLeft: int, logoTop: int)
      /** `base` drawn at the origin and `text` centred at
          (`textX`, `baselineY`) in `textSize` and `textColor`. */
    | WithText(width: int, height: int, base: Picture, text: string,
               textSize: int, textColor: int, textX: int, baselineY: int)

  // ---------------------------------------------------------------------
  // Painting the matrix

  /** The colour of module (x, y). */
  function ModuleColor(m: BitMatrix, x: nat, y: nat, codeColor: int): int
  {
    if m.get(x, y) then codeColor else White
  }

  /** The `width * height` pixel buffer, row-major: index `y * width + x`
      holds module (x, y). */
  function Rendered(m: BitMatrix, width: nat, height: nat, codeColor: int): (pixels: seq<int>)
    ensures |pixels| == width * height
  {
    if width == 0 then []
    else seq(width * height, (i: int) requires 0 <= i < width * height => ModuleColor(m, i % width, i / width, codeColor))
  }

  lemma MulBound(a: nat, b: nat, w: nat)
    requires a <= b
    ensures a * w <= b * w
  {
  }

  /** Row-major indexing is a bijection between the width x height grid
      and the buffer's indices. */
  lemma {:induction false} RowMajor(width: nat, height: nat, x: nat, y: nat)
    requires x < width && y < height
    ensures y * width + x < width * height
    ensures (y * width + x) / width == y && (y * width + x) % width == x
  {
    MulBound(y + 1, height, width);
    var i := y * width + x;
    var q := i / width;
    var r := i % width;
    assert (q - y) * width == x - r;
    if q > y {
      MulBound(1, q - y, width);
      assert false;
    } else if q < y {
      assert (y - q) * width == r - x;
      MulBound(1, y - q, width);
      assert false;
    }
  }

  /** The pixel at (x, y) is the code colour exactly when the module is
      set, white otherwise. */
  lemma RenderedAt(m: BitMatrix, width: nat, height: nat, codeColor: int, x: nat, y: nat)
    requires x < width && y < height
    ensures y * width + x < width * height
    ensures Rendered(m, width, height, codeColor)[y * width + x] == ModuleColor(m, x, y, codeColor)
  {
    RowMajor(width, height, x, y);
  }

  /** With a code colour other than white the bitmap carries the matrix
      exactly: reading a pixel back gives its module. */
  lemma RenderedRoundTrip(m: BitMatrix, width: nat, height: nat, codeColor: int, x: nat, y: nat)
    requires codeColor != White
    requires x < width && y < height
    ensures y * width + x < width * height
    ensures (Rendered(m, width, height, codeColor)[y * width + x] == codeColor) <==> m.get(x, y)
  {
    RenderedAt(m, width, height, codeColor, x, y);
  }

  /** The bitmap is two-tone. */
  lemma RenderedTwoTone(m: BitMatrix, width: nat, height: nat, codeColor: int, i: nat)
    requires i < width * height
    ensures Rendered(m, width, height, codeColor)[i] in {codeColor, White}
  {
  }

  /** The two nested pixel loops: rows top to bottom, each row left to
      right. */
  method FillPixels(m: BitMatrix, width: nat, height: nat, codeColor: int) returns (pixels: array<int>)
    ensures pixels[..] == Rendered(m, width, height, codeColor)
  {
    ghost var target := Rendered(m, width, height, codeColor);
    pixels := new int[width * height];
    var y := 0;
    while y < height
      invariant 0 <= y <= height
      invariant y * width <= |target|
      invariant forall i :: 0 <= i < y * width ==> pixels[i] == target[i]
    {
      var offset := y * width;
      NextRow(width, height, y);
      var x := 0;
      while x < width
        invariant 0 <= x <= width
        invariant forall i :: 0 <= i < offset + x ==> pixels[i] == target[i]
      {
        RenderedAt(m, width, height, codeColor, x, y);
        pixels[offset + x] := if m.get(x, y) then codeColor else White;
        x := x + 1;
      }
      y := y + 1;
    }
    assert pixels[..] == target;
  }

  /** One more row still fits in the buffer. */
  lemma NextRow(width: nat, height: nat, y: nat)
    requires y < height
    ensures y * width + width <= width * height
    ensures (y + 1) * width == y * width + width
  {
    MulBound(y + 1, height, width);
  }

  // ---------------------------------------------------------------------
  // Logo and text decorations

  /** `addLogo`: null in, null out; no logo, the code unchanged; an empty
      code, null; an empty logo, the code unchanged; a canvas failure,
      null; otherwise the logo drawn centred and scaled so that its width
      is `ratio` of the code's width. */
  function AddLogo(src: Option<Picture>, logo: Option<Picture>, ratio: real, canvasFails: bool): (r: Option<Picture>)
    ensures src.None? ==> r.None?
    ensures src.Some? && logo.None? ==> r == src
    ensures src.Some? && logo.Some? && (src.value.width == 0 || src.value.height == 0) ==> r.None?
    ensures (src.Some? && logo.Some? && src.value.width != 0 && src.value.height != 0
             && (logo.value.width == 0 || logo.value.height == 0)) ==> r == src
    ensures src.Some? && logo.Some? && src.value.width != 0 && src.value.height != 0
            && logo.value.width != 0 && logo.value.height != 0 ==>
      var (s, l) := (src.value, logo.value);
      && (r.None? <==> canvasFails)
      && (r.Some? ==>
            && r.value.WithLogo? && r.value.base == s && r.value.logo == l
            && r.value.width == s.width && r.value.height == s.height
            && r.value.scale * l.width as real == s.width as real * ratio
            && r.value.pivotX == TruncDiv(s.width, 2) && r.value.pivotY == TruncDiv(s.height, 2)
            && r.value.logoLeft == TruncDiv(s.width - l.width, 2) && r.value.logoTop == TruncDiv(s.height - l.height, 2))
  {
    if src.None? then None
    else if logo.None? then src
    else
      var (s, l) := (src.value, logo.value);
      if s.width == 0 || s.height == 0 then None
      else if l.width == 0 || l.height == 0 then src
      else if canvasFails then None
      else
        var scaleFactor := s.width as real * ratio / l.width as real;
        Some(WithLogo(s.width, s.height, s, l, scaleFactor,
                      TruncDiv(s.width, 2), TruncDiv(s.height, 2),
                      TruncDiv(s.width - l.width, 2), TruncDiv(s.height - l.height, 2)))
  }

  /** `addCode`: null in, null out; no text, the code unchanged; a
      non-positive size, null; a canvas failure, null; otherwise a taller
      bitmap with the code on top and the text centred below it. */
  function AddCode(src: Option<Picture>, code: Option<string>, textSize: int, textColor: int, offset: int, canvasFails: bool): (r: Option<Picture>)
    ensures src.None? ==> r.None?
    ensures src.Some? && (code.None? || code.value == []) ==> r == src
    ensures src.Some? && code.Some? && code.value != [] && (src.value.width <= 0 || src.value.height <= 0) ==> r.None?
    ensures src.Some? && code.Some? && code.value != [] && src.value.width > 0 && src.value.height > 0 ==>
      var s := src.value;
      && (r.None? <==> canvasFails)
      && (r.Some? ==>
            && r.value.WithText? && r.value.base == s && r.value.text == code.value
            && r.value.width == s.width && r.value.height == s.height + textSize + offset * 2
            && r.value.textSize == textSize && r.value.textColor == textColor
            && r.value.textX == TruncDiv(s.width, 2) && r.value.baselineY == s.height + TruncDiv(textSize, 2) + offset)
  {
    if src.None? then None
    else if code.None? || code.value == [] then src
    else
      var s := src.value;
      if s.width <= 0 || s.height <= 0 then None
      else if canvasFails then None
      else
        Some(WithText(s.width, s.height + textSize + offset * 2, s, code.value, textSize, textColor,
                      TruncDiv(s.width, 2), s.height + TruncDiv(textSize, 2) + offset))
  }

  /** With the barcode's offset of half the text size, the text baseline
      lies inside the added strip, at least `textSize / 2` below the bars. */
  lemma TextBaselineInStrip(src: Picture, code: string, textSize: int, textColor: int)
    requires src.width > 0 && src.height > 0 && code != [] && textSize > 0
    ensures var r := AddCode(Some(src), Some(code), textSize, textColor, TruncDiv(textSize, 2), false);
      r.Some? && r.value.WithText?
      && src.height + TruncDiv(textSize, 2) <= r.value.baselineY < r.value.height
      && r.value.height - src.height == textSize + 2 * TruncDiv(textSize, 2)
  {
  }

  // ---------------------------------------------------------------------
  // Creating codes

  /** The most general `createQRCode`. */
  function QrPicture(content: string, heightPix: nat, logo: Option<Picture>, ratio: real,
                     hints: EncodeHints, codeColor: int, writer: Writer, canvasFails: bool): Option<Picture>
  {
    match writer(content, QrCode, heightPix, heightPix, hints)
    case None => None
    case Some(m) =>
      var bitmap := Raster(heightPix, heightPix, Rendered(m, heightPix, heightPix, codeColor));
      if logo.Some? then AddLogo(Some(bitmap), logo, ratio, canvasFails) else Some(bitmap)
  }

  /** The most general `createQRCode`: a heightPix x heightPix bitmap of the
      matrix the QR writer returns, then the logo if one is given; null
      when the writer fails. */
  method CreateQRCode(content: string, heightPix: nat, logo: Option<Picture>, ratio: real,
                      hints: EncodeHints, codeColor: int, writer: Writer, canvasFails: bool)
    returns (bitmap: Option<Picture>)
    ensures bitmap == QrPicture(content, heightPix, logo, ratio, hints, codeColor, writer, canvasFails)
  {
    var encoded := writer(content, QrCode, heightPix, heightPix, hints);
    if encoded.None? {
      return None;
    }
    var bitMatrix := encoded.value;
    var pixels := FillPixels(bitMatrix, heightPix, heightPix, codeColor);
    bitmap := Some(Raster(heightPix, heightPix, pixels[..]));
    if logo.Some? {
      bitmap := AddLogo(bitmap, logo, ratio, canvasFails);
    }
  }

  /** A QR code without a logo is the square raster of the matrix: every
      pixel tells its module. */
  lemma QrWithoutLogo(content: string, heightPix: nat, ratio: real, hints: EncodeHints,
                      codeColor: int, writer: Writer, canvasFails: bool, x: nat, y: nat)
    requires writer(content, QrCode, heightPix, heightPix, hints).Some?
    requires codeColor != White && x < heightPix && y < heightPix
    ensures var b := QrPicture(content, heightPix, None, ratio, hints, codeColor, writer, canvasFails);
      b.Some? && b.value.Raster? && b.value.width == b.value.height == heightPix
      && |b.value.pixels| == heightPix * heightPix
      && y * heightPix + x < heightPix * heightPix
      && (b.value.pixels[y * heightPix + x] == codeColor
          <==> writer(content, QrCode, heightPix, heightPix, hints).value.get(x, y))
  {
    var m := writer(content, QrCode, heightPix, heightPix, hints).value;
    RenderedRoundTrip(m, heightPix, heightPix, codeColor, x, y);
  }

  /** A logo is drawn over the raster, scaled to `ratio` of the code's
      width, unless the canvas fails (null). A zero size makes
      `Bitmap.createBitmap` throw before the logo is considered. */
  lemma QrWithLogo(content: string, heightPix: nat, logo: Picture, ratio: real, hints: EncodeHints,
                   codeColor: int, writer: Writer, canvasFails: bool)
    requires writer(content, QrCode, heightPix, heightPix, hints).Some?
    requires heightPix > 0
    requires logo.width != 0 && logo.height != 0
    ensures var b := QrPicture(content, heightPix, Some(logo), ratio, hints, codeColor, writer, canvasFails);
      (canvasFails <==> b.None?)
      && (b.Some? ==>
            b.value.WithLogo? && b.value.logo == logo
            && b.value.base == Raster(heightPix, heightPix,
                 Rendered(writer(content, QrCode, heightPix, heightPix, hints).value, heightPix, heightPix, codeColor))
            && b.value.scale * logo.width as real == heightPix as real * ratio)
  {
  }

  /** A writer failure gives null whatever the other arguments. */
  lemma QrWriterFailure(content: string, heightPix: nat, logo: Option<Picture>, ratio: real,
                        hints: EncodeHints, codeColor: int, writer: Writer, canvasFails: bool)
    requires writer(content, QrCode, heightPix, heightPix, hints).None?
    ensures QrPicture(content, heightPix, logo, ratio, hints, codeColor, writer, canvasFails).None?
  {
  }

  /** The most general `createBarCode`. */
  function BarPicture(content: Option<string>, format: BarcodeFormat, desiredWidth: int, desiredHeight: int,
                      hints: EncodeHints, isShowText: bool, textSize: int, codeColor: int,
                      writer: Writer, canvasFails: bool): Option<Picture>
  {
    if content.None? || content.value == [] then None
    else
      match writer(content.value, format, desiredWidth, desiredHeight, hints)
      case None => None
      case Some(m) =>
        var bitmap := Raster(m.width, m.height, Rendered(m, m.width, m.height, codeColor));
        if isShowText then AddCode(Some(bitmap), content, textSize, codeColor, TruncDiv(textSize, 2), canvasFails)
        else Some(bitmap)
  }

  /** The most general `createBarCode`: null for empty content or a writer
      failure; otherwise the raster of the matrix at the matrix's own size,
      with the content under it in the code colour when asked, using half
      the text size as the offset. */
  method CreateBarCode(content: Option<string>, format: BarcodeFormat, desiredWidth: int, desiredHeight: int,
                       hints: EncodeHints, isShowText: bool, textSize: int, codeColor: int,
                       writer: Writer, canvasFails: bool)
    returns (bitmap: Option<Picture>)
    ensures bitmap == BarPicture(content, format, desiredWidth, desiredHeight, hints, isShowText, textSize, codeColor, writer, canvasFails)
  {
    if content.None? || content.value == [] {
      return None;
    }
    var encoded := writer(content.value, format, desiredWidth, desiredHeight, hints);
    if encoded.None? {
      return None;
    }
    var result := encoded.value;
    var width := result.width;
    var height := result.height;
    var pixels := FillPixels(result, width, height, codeColor);
    var raster := Raster(width, height, pixels[..]);
    if isShowText {
      return AddCode(Some(raster), content, textSize, codeColor, TruncDiv(textSize, 2), canvasFails);
    }
    return Some(raster);
  }

  /** Null or empty content gives null before the writer is consulted. */
  lemma EmptyBarContent(content: Option<string>, format: BarcodeFormat, desiredWidth: int, desiredHeight: int,
                        hints: EncodeHints, isShowText: bool, textSize: int, codeColor: int,
                        writer: Writer, canvasFails: bool)
    requires content.None? || content.value == []
    ensures BarPicture(content, format, desiredWidth, desiredHeight, hints, isShowText, textSize, codeColor, writer, canvasFails).None?
  {
  }

  /** A barcode with text: the bars on top, unchanged, and a strip of
      `textSize + 2 * (textSize / 2)` pixels holding the content, drawn in
      the code colour. */
  lemma BarWithText(content: string, format: BarcodeFormat, desiredWidth: int, desiredHeight: int,
                    hints: EncodeHints, textSize: int, codeColor: int, writer: Writer)
    requires content != []
    requires writer(content, format, desiredWidth, desiredHeight, hints).Some?
    requires var m := writer(content, format, desiredWidth, desiredHeight, hints).value; m.width > 0 && m.height > 0
    ensures var m := writer(content, format, desiredWidth, desiredHeight, hints).value;
      var b := BarPicture(Some(content), format, desiredWidth, desiredHeight, hints, true, textSize, codeColor, writer, false);
      b.Some? && b.value.WithText?
      && b.value.base == Raster(m.width, m.height, Rendered(m, m.width, m.height, codeColor))
      && b.value.text == content && b.value.textColor == codeColor
      && b.value.width == m.width
      && b.value.height == m.height + textSize + 2 * TruncDiv(textSize, 2)
  {
  }

  // ---------------------------------------------------------------------
  // Overloads

  /** The `createQRCode` overloads, by their parameter lists. */
  datatype QrCall =
    | QrHeight(content: string, heightPix: nat)
    | QrColor(content: string, heightPix: nat, codeColor: int)
    | QrLogo(content: string, heightPix: nat, logo: Option<Picture>)
    | QrLogoColor(content: string, heightPix: nat, logo: Option<Picture>, codeColor: int)
    | QrRatio(content: string, heightPix: nat, logo: Option<Picture>, ratio: real)
    | QrRatioColor(content: string, heightPix: nat, logo: Option<Picture>, ratio: real, codeColor: int)
    | QrHints(content: string, heightPix: nat, logo: Option<Picture>, ratio: real, hints: EncodeHints)
    | QrFull(content: string, heightPix: nat, logo: Option<Picture>, ratio: real, hints: EncodeHints, codeColor: int)

  /** The arguments the most general overload ends up with. */
  datatype QrArgs = QrArgs(content: string, heightPix: nat, logo: Option<Picture>, ratio: real, hints: EncodeHints, codeColor: int)

  /** How many delegations an overload is from the most general one. */
  function QrDepth(c: QrCall): nat
  {
    match c
    case QrFull(_, _, _, _, _, _) => 0
    case QrHints(_, _, _, _, _) => 1
    case QrRatioColor(_, _, _, _, _) => 1
    case QrRatio(_, _, _, _) => 2
    case QrLogoColor(_, _, _, _) => 2
    case QrLogo(_, _, _) => 3
    case QrColor(_, _, _) => 3
    case QrHeight(_, _) => 4
  }

  /** Follows the delegation chain to the most general overload: no logo
      by default, a logo ratio of 0.2, the UTF-8 / level H / margin 1 hint
      map unless hints are given, black unless a colour is given. */
  function ResolveQr(c: QrCall): (a: QrArgs)
    ensures a.content == c.content && a.heightPix == c.heightPix
    ensures a.logo == if c.QrHeight? || c.QrColor? then None else c.logo
    ensures a.ratio == if c.QrRatio? || c.QrRatioColor? || c.QrHints? || c.QrFull? then c.ratio else DefaultLogoRatio
    ensures a.hints == if c.QrHints? || c.QrFull? then c.hints else QrDefaultHints
    ensures a.codeColor == if c.QrColor? || c.QrLogoColor? || c.QrRatioColor? || c.QrFull? then c.codeColor else Black
    decreases QrDepth(c)
  {
    match c
    case QrHeight(content, heightPix) => ResolveQr(QrLogo(content, heightPix, None))
    case QrColor(content, heightPix, codeColor) => ResolveQr(QrLogoColor(content, heightPix, None, codeColor))
    case QrLogo(content, heightPix, logo) => ResolveQr(QrLogoColor(content, heightPix, logo, Black))
    case QrLogoColor(content, heightPix, logo, codeColor) =>
      ResolveQr(QrRatioColor(content, heightPix, logo, DefaultLogoRatio, codeColor))
    case QrRatio(content, heightPix, logo, ratio) => ResolveQr(QrHints(content, heightPix, logo, ratio, QrDefaultHints))
    case QrRatioColor(content, heightPix, logo, ratio, codeColor) =>
      ResolveQr(QrFull(content, heightPix, logo, ratio, QrDefaultHints, codeColor))
    case QrHints(content, heightPix, logo, ratio, hints) => ResolveQr(QrFull(content, heightPix, logo, ratio, hints, Black))
    case QrFull(content, heightPix, logo, ratio, hints, codeColor) => QrArgs(content, heightPix, logo, ratio, hints, codeColor)
  }

  /** The `createBarCode` overloads, by their parameter lists. */
  datatype BarCall =
    | BarSize(content: Option<string>, desiredWidth: int, desiredHeight: int)
    | BarFormat(content: Option<string>, format: BarcodeFormat, desiredWidth: int, desiredHeight: int)
    | BarText(content: Option<string>, desiredWidth: int, desiredHeight: int, isShowText: bool)
    | BarTextColor(content: Option<string>, desiredWidth: int, desiredHeight: int, isShowText: bool, codeColor: int)
    | BarHints(content: Option<string>, format: BarcodeFormat, desiredWidth: int, desiredHeight: int, hints: EncodeHints)
    | BarHintsText(content: Option<string>, format: BarcodeFormat, desiredWidth: int, desiredHeight: int, hints: EncodeHints, isShowText: bool)
    | BarFormatTextColor(content: Option<string>, format: BarcodeFormat, desiredWidth: int, desiredHeight: int, isShowText: bool, codeColor: int)
    | BarHintsTextColor(content: Option<string>, format: BarcodeFormat, desiredWidth: int, desiredHeight: int, hints: EncodeHints, isShowText: bool, codeColor: int)
    | BarFull(content: Option<string>, format: BarcodeFormat, desiredWidth: int, desiredHeight: int, hints: EncodeHints, isShowText: bool, textSize: int, codeColor: int)

  datatype BarArgs = BarArgs(content: Option<string>, format: BarcodeFormat, desiredWidth: int, desiredHeight: int,
                             hints: EncodeHints, isShowText: bool, textSize: int, codeColor: int)

  function BarDepth(c: BarCall): nat
  {
    match c
    case BarFull(_, _, _, _, _, _, _, _) => 0
    case BarHints(_, _, _, _, _) => 1
    case BarSize(_, _, _) => 2
    case BarFormat(_, _, _, _) => 2
    case _ => 1
  }

  /** Follows the delegation chain to the most general overload: CODE_128
      unless a format is given, a null hint map unless hints are given, no
      text unless asked, text size 40, black unless a colour is given. */
  function ResolveBar(c: BarCall): (a: BarArgs)
    ensures a.content == c.content && a.desiredWidth == c.desiredWidth && a.desiredHeight == c.desiredHeight
    ensures a.format == if c.BarSize? || c.BarText? || c.BarTextColor? then Code128 else c.format
    ensures a.hints == if c.BarHints? || c.BarHintsText? || c.BarHintsTextColor? || c.BarFull? then c.hints else NullHints
    ensures a.isShowText == if c.BarSize? || c.BarFormat? || c.BarHints? then false else c.isShowText
    ensures a.textSize == if c.BarFull? then c.textSize else DefaultTextSize
    ensures a.codeColor == if c.BarTextColor? || c.BarFormatTextColor? || c.BarHintsTextColor? || c.BarFull? then c.codeColor else Black
    decreases BarDepth(c)
  {
    match c
    case BarSize(content, w, h) => ResolveBar(BarHints(content, Code128, w, h, NullHints))
    case BarFormat(content, format, w, h) => ResolveBar(BarHints(content, format, w, h, NullHints))
    case BarText(content, w, h, show) => ResolveBar(BarFull(content, Code128, w, h, NullHints, show, DefaultTextSize, Black))
    case BarTextColor(content, w, h, show, color) => ResolveBar(BarFull(content, Code128, w, h, NullHints, show, DefaultTextSize, color))
    case BarHints(content, format, w, h, hints) => ResolveBar(BarFull(content, format, w, h, hints, false, DefaultTextSize, Black))
    case BarHintsText(content, format, w, h, hints, show) => ResolveBar(BarFull(content, format, w, h, hints, show, DefaultTextSize, Black))
    case BarFormatTextColor(content, format, w, h, show, color) => ResolveBar(BarFull(content, format, w, h, NullHints, show, DefaultTextSize, color))
    case BarHintsTextColor(content, format, w, h, hints, show, color) => ResolveBar(BarFull(content, format, w, h, hints, show, DefaultTextSize, color))
    case BarFull(content, format, w, h, hints, show, size, color) => BarArgs(content, format, w, h, hints, show, size, color)
  }

  /** Any `createQRCode` overload. */
  method CreateQRCodeWith(c: QrCall, writer: Writer, canvasFails: bool) returns (bitmap: Option<Picture>)
    ensures var a := ResolveQr(c);
      bitmap == QrPicture(a.content, a.heightPix, a.logo, a.ratio, a.hints, a.codeColor, writer, canvasFails)
  {
    var a := ResolveQr(c);
    bitmap := CreateQRCode(a.content, a.heightPix, a.logo, a.ratio, a.hints, a.codeColor, writer, canvasFails);
  }

  /** Any `createBarCode` overload. */
  method CreateBarCodeWith(c: BarCall, writer: Writer, canvasFails: bool) returns (bitmap: Option<Picture>)
    ensures var a := ResolveBar(c);
      bitmap == BarPicture(a.content, a.format, a.desiredWidth, a.desiredHeight, a.hints, a.isShowText, a.textSize, a.codeColor, writer, canvasFails)
  {
    var a := ResolveBar(c);
    bitmap := CreateBarCode(a.content, a.format, a.desiredWidth, a.desiredHeight, a.hints, a.isShowText, a.textSize, a.codeColor, writer, canvasFails);
  }
}
