/** Values shared by the scanner's components: an Option type for Java's
    nullable references, Java's 32-bit integer range and its truncating
    arithmetic, and the ZXing value types the pipeline passes around. */
module Common {

  /** A Java reference that may be null. */
  datatype Option<+T> = None | Some(value: T)

  const IntMin: int := -0x8000_0000
  const IntMax: int := 0x7fff_ffff

  /** Java's `int`. */
  type Int32 = x: int | IntMin <= x <= IntMax

  function Abs(x: int): nat { if x < 0 then -x else x }

  function Min(a: int, b: int): int { if a <= b then a else b }

  function Max(a: int, b: int): int { if a >= b then a else b }

  /** Java's integer `/`: the quotient is truncated toward zero, so the
      remainder has the sign of the dividend (Dafny's `/` is Euclidean). */
  function TruncDiv(a: int, b: int): (q: int)
    requires b != 0
    ensures 0 <= a ==> 0 <= a - q * b < Abs(b)
    ensures a < 0 ==> 0 <= q * b - a < Abs(b)
  {
    if a >= 0 then
      (if b > 0 then a / b else -(a / -b))
    else
      (if b > 0 then -((-a) / b) else (-a) / (-b))
  }

  /** On a non-negative dividend and a positive divisor Java's `/` and
      Dafny's `/` agree; on a negative dividend they do not. */
  lemma TruncDivVersusEuclidean(a: int, b: int)
    requires b > 0
    ensures 0 <= a ==> TruncDiv(a, b) == a / b
    ensures a < 0 && a % b != 0 ==> TruncDiv(a, b) == a / b + 1
  {
    if a < 0 && a % b != 0 {
      var q := TruncDiv(a, b);
      var k := q - a / b;
      assert k * b == (a - (a / b) * b) - (a - q * b);
      assert 0 < k * b < 2 * b;
      assert 0 < k < 2;
    }
  }

  /** Java's `(int)` cast of a finite float value: truncation toward zero
      (saturation at the int range and NaN are not modelled). */
  function TruncReal(x: real): (n: int)
    ensures 0.0 <= x ==> 0 <= n && n as real <= x < n as real + 1.0
    ensures x < 0.0 ==> n <= 0 && n as real - 1.0 < x <= n as real
  {
    if x >= 0.0 then x.Floor else -((-x).Floor)
  }

  /** The symbologies the pipeline distinguishes; only QR_CODE gets
      special treatment (auto-zoom), CODE_128 is the barcode default. */
  datatype BarcodeFormat = QrCode | Code128 | OtherFormat(name: string)

  /** A finder-pattern corner reported by the decode engine. */
  datatype ResultPoint = ResultPoint(x: real, y: real)

  /** ZXing's `Result`: decoded text, symbology and geometry points. */
  datatype DecodeResult = DecodeResult(text: string, format: BarcodeFormat, points: seq<ResultPoint>)

  /** Decode-hint maps; the named ones are constants of DecodeFormatManager,
      which is not part of this model, so they are kept abstract. */
  datatype HintSet = DefaultHints | AllHints | QrCodeHints | CustomHints(formats: set<BarcodeFormat>)

  /** The last element of a non-empty sequence. */
  function Last<T>(s: seq<T>): (x: T)
    requires s != []
    ensures x in s && x == s[|s| - 1]
  {
    s[|s| - 1]
  }
}
