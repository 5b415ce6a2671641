/** The static-image decode path: a reader configured with hints tries the
    candidate luminance sources (identity, inverted, rotated) in order, each
    with the hybrid binarizer and then the global-histogram binarizer, stops
    at the first success, swallows every exception and always resets the
    reader. The ZXing engine, the luminance-source transforms and Android's
    bitmap decoding are oracles supplied by the caller. */
module CodeReader {
  import opened Common

  const DefaultReqWidth: Int32 := 480
  const DefaultReqHeight: Int32 := 640

  /** A bitmap's pixel data, as handed to RGBLuminanceSource. */
  datatype Image = Image(width: int, height: int, pixels: seq<int>)

  /** An image file, as a bounds-only decode reports it. */
  datatype ImageFile = ImageFile(path: string, outWidth: Int32, outHeight: Int32)

  /** The candidate luminance sources. Rotated is the counter-clockwise
      rotation of the original source, not of the inverted one. */
  datatype Transform = Identity | Inverted | Rotated

  datatype Binarizer = Hybrid | GlobalHistogram

  /** One call of `decodeWithState`: a source and a binarizer. */
  datatype Attempt = Attempt(source: Transform, binarizer: Binarizer)

  /** What one engine call does: returns a result, or throws
      (NotFoundException, or any other fault). */
  datatype Outcome = Decoded(result: DecodeResult) | NotFound | Fault

  /** The ZXing engine: the outcome of one attempt on an image under the
      hints the reader holds. */
  type Engine = (Image, Option<HintSet>, Attempt) -> Outcome

  /** Android's `BitmapFactory.decodeFile` with a sample size; null when the
      file cannot be decoded. */
  type BitmapDecoder = (ImageFile, int) -> Option<Image>

  /** What the luminance source reports: whether it supports rotation, and
      which transforms throw while being constructed (for Identity: while
      the pixels are extracted). */
  datatype LuminanceEnv = LuminanceEnv(rotateSupported: bool, failing: set<Transform>)

  /** The calls made on the MultiFormatReader, in order. */
  datatype ReaderEvent = SetHintsCall(hints: HintSet) | DecodeCall(attempt: Attempt) | ResetCall

  /** The result of a sweep and the attempts it made, in order. */
  datatype Run = Run(result: Option<DecodeResult>, attempts: seq<Attempt>)

  /** ZXing's MultiFormatReader, as far as this path uses it. */
  class Reader {
    var hints: Option<HintSet>
    ghost var events: seq<ReaderEvent>

    constructor ()
      ensures hints == None && events == []
    {
      hints := None;
      events := [];
    }

    method SetHints(h: HintSet)
      modifies this
      ensures hints == Some(h)
      ensures events == old(events) + [SetHintsCall(h)]
    {
      hints := Some(h);
      events := events + [SetHintsCall(h)];
    }

    method DecodeWithState(engine: Engine, image: Image, a: Attempt) returns (o: Outcome)
      modifies this
      ensures o == engine(image, old(hints), a)
      ensures hints == old(hints)
      ensures events == old(events) + [DecodeCall(a)]
    {
      o := engine(image, hints, a);
      events := events + [DecodeCall(a)];
    }

    method Reset()
      modifies this
      ensures hints == old(hints)
      ensures events == old(events) + [ResetCall]
    {
      events := events + [ResetCall];
    }
  }

  function Decodes(attempts: seq<Attempt>): seq<ReaderEvent>
  {
    seq(|attempts|, i requires 0 <= i < |attempts| => DecodeCall(attempts[i]))
  }

  lemma DecodesAppend(a: seq<Attempt>, b: seq<Attempt>)
    ensures Decodes(a + b) == Decodes(a) + Decodes(b)
  {
  }

  predicate Hit(engine: Engine, image: Image, hints: Option<HintSet>, a: Attempt)
  {
    engine(image, hints, a).Decoded?
  }

  /** `decodeInternal` on one source: hybrid first, global histogram only
      when the hybrid attempt gave nothing. */
  function SourceRun(engine: Engine, image: Image, hints: Option<HintSet>, t: Transform): Run
  {
    var first := Attempt(t, Hybrid);
    var second := Attempt(t, GlobalHistogram);
    match engine(image, hints, first)
    case Decoded(r) => Run(Some(r), [first])
    case _ =>
      match engine(image, hints, second)
      case Decoded(r) => Run(Some(r), [first, second])
      case _ => Run(None, [first, second])
  }

  /** The candidate sources in the order they are tried. */
  function Candidates(env: LuminanceEnv): seq<Transform>
  {
    [Identity, Inverted] + (if env.rotateSupported then [Rotated] else [])
  }

  /** Trying the candidates in order: a candidate whose construction throws
      ends the sweep with no result; the first success ends it with that
      result. */
  function Sweep(engine: Engine, image: Image, hints: Option<HintSet>, env: LuminanceEnv, cands: seq<Transform>): Run
    decreases |cands|
  {
    if cands == [] || cands[0] in env.failing then Run(None, [])
    else
      var here := SourceRun(engine, image, hints, cands[0]);
      if here.result.Some? then here
      else
        var rest := Sweep(engine, image, hints, env, cands[1..]);
        Run(rest.result, here.attempts + rest.attempts)
  }

  /** The whole chain on a bitmap that may be null (a null bitmap throws
      while its pixels are read). */
  function Chain(engine: Engine, bitmap: Option<Image>, hints: Option<HintSet>, env: LuminanceEnv): Run
  {
    if bitmap.None? then Run(None, [])
    else Sweep(engine, bitmap.value, hints, env, Candidates(env))
  }

  /** The reference schedule: every candidate with both binarizers. */
  function PlanOf(cands: seq<Transform>): (p: seq<Attempt>)
    ensures |p| == 2 * |cands|
  {
    if cands == [] then []
    else [Attempt(cands[0], Hybrid), Attempt(cands[0], GlobalHistogram)] + PlanOf(cands[1..])
  }

  function Plan(env: LuminanceEnv): seq<Attempt>
  {
    PlanOf(Candidates(env))
  }

  /** `decodeInternal(reader, source)`. An exception of the hybrid attempt
      is swallowed; one of the global-histogram attempt leaves the result
      null. */
  method DecodeInternal(reader: Reader, engine: Engine, image: Image, t: Transform) returns (result: Option<DecodeResult>)
    modifies reader
    ensures result == SourceRun(engine, image, old(reader.hints), t).result
    ensures reader.hints == old(reader.hints)
    ensures reader.events == old(reader.events) + Decodes(SourceRun(engine, image, old(reader.hints), t).attempts)
  {
    result := None;
    var first := reader.DecodeWithState(engine, image, Attempt(t, Hybrid));
    if first.Decoded? {
      result := Some(first.result);
    }
    if result.None? {
      var second := reader.DecodeWithState(engine, image, Attempt(t, GlobalHistogram));
      if second.Decoded? {
        result := Some(second.result);
      }
    }
  }

  /** The body of the `try` block shared by both `parseCodeResult`
      variants: a thrown exception leaves the block with the result so far,
      which is always null at that point. */
  method DecodeSources(reader: Reader, bitmap: Option<Image>, engine: Engine, env: LuminanceEnv) returns (result: Option<DecodeResult>)
    modifies reader
    ensures var run := Chain(engine, bitmap, old(reader.hints), env);
      result == run.result && reader.events == old(reader.events) + Decodes(run.attempts)
    ensures reader.hints == old(reader.hints)
  {
    ghost var h := reader.hints;
    ghost var before := reader.events;
    result := None;
    label attempt: {
      if bitmap.None? || Identity in env.failing {
        break attempt;
      }
      var source := bitmap.value;
      ghost var cands := Candidates(env);
      ghost var s0 := SourceRun(engine, source, h, Identity);
      ghost var s1 := SourceRun(engine, source, h, Inverted);
      ghost var s2 := SourceRun(engine, source, h, Rotated);
      assert cands[0] == Identity && cands[1] == Inverted;
      assert cands[2..] == if env.rotateSupported then [Rotated] else [];
      ghost var c1 := cands[1..];
      ghost var c2 := cands[2..];
      assert c1[0] == Inverted && c1[1..] == c2;
      result := DecodeInternal(reader, engine, source, Identity);
      if result.Some? {
        assert Chain(engine, bitmap, h, env) == s0;
      } else {
        if Inverted in env.failing {
          assert Sweep(engine, source, h, env, c1) == Run(None, []);
          assert s0.attempts + [] == s0.attempts;
          break attempt;
        }
        result := DecodeInternal(reader, engine, source, Inverted);
        DecodesAppend(s0.attempts, s1.attempts);
        if result.Some? {
          assert Sweep(engine, source, h, env, c1) == s1;
        } else if !env.rotateSupported {
          assert Sweep(engine, source, h, env, c2) == Run(None, []);
          assert Sweep(engine, source, h, env, c1) == Run(None, s1.attempts + []);
          assert s1.attempts + [] == s1.attempts;
        } else {
          assert c2 == [Rotated];
          if Rotated in env.failing {
            assert Sweep(engine, source, h, env, c2) == Run(None, []);
            assert Sweep(engine, source, h, env, c1) == Run(None, s1.attempts + []);
            assert s1.attempts + [] == s1.attempts;
            break attempt;
          }
          result := DecodeInternal(reader, engine, source, Rotated);
          assert c2[1..] == [];
          DecodesAppend(s0.attempts + s1.attempts, s2.attempts);
          if result.None? {
            assert Sweep(engine, source, h, env, c2) == Run(None, s2.attempts + []);
            assert s2.attempts + [] == s2.attempts;
          } else {
            assert Sweep(engine, source, h, env, c2) == s2;
          }
          assert Sweep(engine, source, h, env, c1) == Run(result, s1.attempts + s2.attempts);
          assert s0.attempts + (s1.attempts + s2.attempts) == s0.attempts + s1.attempts + s2.attempts;
        }
      }
    }
  }

  /** `parseCodeResult(Bitmap, hints)`: a fresh reader is configured with
      the hints, the candidates are decoded, and the reader is reset exactly
      once whatever happened. */
  method ParseCodeResult(bitmap: Option<Image>, hints: HintSet, engine: Engine, env: LuminanceEnv)
    returns (result: Option<DecodeResult>, ghost events: seq<ReaderEvent>)
    ensures result == Chain(engine, bitmap, Some(hints), env).result
    ensures events == [SetHintsCall(hints)] + Decodes(Chain(engine, bitmap, Some(hints), env).attempts) + [ResetCall]
  {
    var reader := new Reader();
    reader.SetHints(hints);
    result := DecodeSources(reader, bitmap, engine, env);
    reader.Reset();
    events := reader.events;
  }

  /** `(int)((float) a / b)` on Java ints: float division by zero gives an
      infinity (or NaN for 0/0), which the cast saturates (or maps to 0). */
  function FloatQuotient(a: Int32, b: Int32): int
  {
    if b == 0 then (if a > 0 then IntMax else if a < 0 then IntMin else 0)
    else Max(IntMin, Min(IntMax, TruncDiv(a, b)))
  }

  /** The `inSampleSize` that `compressBitmap` computes from the bounds of
      the file and the requested size. */
  function InSampleSize(width: Int32, height: Int32, reqWidth: Int32, reqHeight: Int32): (size: int)
    ensures size >= 1
    ensures width <= reqWidth && height <= reqHeight ==> size == 1
    ensures 0 < reqWidth && 0 < reqHeight ==>
      size == Max(if width > reqWidth then width / reqWidth else 1,
                  if height > reqHeight then height / reqHeight else 1)
  {
    var wSize := if width > reqWidth then FloatQuotient(width, reqWidth) else 1;
    var hSize := if height > reqHeight then FloatQuotient(height, reqHeight) else 1;
    var size := Max(wSize, hSize);
    if size <= 0 then 1 else size
  }

  /** `compressBitmap(path, reqWidth, reqHeight)`. */
  function CompressBitmap(file: ImageFile, reqWidth: Int32, reqHeight: Int32, decodeFile: BitmapDecoder): (r: Option<Image>)
    ensures file.outWidth <= reqWidth && file.outHeight <= reqHeight ==> r == decodeFile(file, 1)
    ensures 0 < reqWidth && 0 < reqHeight ==>
      r == decodeFile(file, Max(if file.outWidth > reqWidth then file.outWidth / reqWidth else 1,
                                if file.outHeight > reqHeight then file.outHeight / reqHeight else 1))
  {
    decodeFile(file, InSampleSize(file.outWidth, file.outHeight, reqWidth, reqHeight))
  }

  /** The chain run by `parseCodeResult(path, reqWidth, reqHeight, hints)`. */
  function FileChain(file: ImageFile, reqWidth: Int32, reqHeight: Int32, hints: HintSet,
                     decodeFile: BitmapDecoder, engine: Engine, env: LuminanceEnv): Run
  {
    Chain(engine, CompressBitmap(file, reqWidth, reqHeight, decodeFile), Some(hints), env)
  }

  function TextOf(r: Option<DecodeResult>): Option<string>
  {
    if r.Some? then Some(r.value.text) else None
  }

  /** `parseCodeResult(path, reqWidth, reqHeight, hints)`. */
  method ParseCodeResultFromFile(file: ImageFile, reqWidth: Int32, reqHeight: Int32, hints: HintSet,
                                 decodeFile: BitmapDecoder, engine: Engine, env: LuminanceEnv)
    returns (result: Option<DecodeResult>, ghost events: seq<ReaderEvent>)
    ensures result == FileChain(file, reqWidth, reqHeight, hints, decodeFile, engine, env).result
    ensures events == [SetHintsCall(hints)] + Decodes(FileChain(file, reqWidth, reqHeight, hints, decodeFile, engine, env).attempts) + [ResetCall]
  {
    var reader := new Reader();
    reader.SetHints(hints);
    var bitmap := CompressBitmap(file, reqWidth, reqHeight, decodeFile);
    result := DecodeSources(reader, bitmap, engine, env);
    reader.Reset();
    events := reader.events;
  }

  /** `parseCodeResult(path, hints)`: the default bounds 480x640. */
  method ParseCodeResultWithHints(file: ImageFile, hints: HintSet, decodeFile: BitmapDecoder, engine: Engine, env: LuminanceEnv)
    returns (result: Option<DecodeResult>)
    ensures result == FileChain(file, 480, 640, hints, decodeFile, engine, env).result
  {
    ghost var events;
    result, events := ParseCodeResultFromFile(file, DefaultReqWidth, DefaultReqHeight, hints, decodeFile, engine, env);
  }

  /** `parseCode(path, hints)`: the text of the result, or null. */
  method ParseCodeWithHints(file: ImageFile, hints: HintSet, decodeFile: BitmapDecoder, engine: Engine, env: LuminanceEnv)
    returns (text: Option<string>)
    ensures text == TextOf(FileChain(file, 480, 640, hints, decodeFile, engine, env).result)
  {
    var result := ParseCodeResultWithHints(file, hints, decodeFile, engine, env);
    text := if result.Some? then Some(result.value.text) else None;
  }

  /** `parseCode(path)`: all formats, default bounds. */
  method ParseCode(file: ImageFile, decodeFile: BitmapDecoder, engine: Engine, env: LuminanceEnv)
    returns (text: Option<string>)
    ensures text == TextOf(FileChain(file, 480, 640, AllHints, decodeFile, engine, env).result)
  {
    text := ParseCodeWithHints(file, AllHints, decodeFile, engine, env);
  }

  /** `parseQRCodeResult(path, reqWidth, reqHeight)`: QR-code hints. */
  method ParseQRCodeResultSized(file: ImageFile, reqWidth: Int32, reqHeight: Int32,
                                decodeFile: BitmapDecoder, engine: Engine, env: LuminanceEnv)
    returns (result: Option<DecodeResult>)
    ensures result == FileChain(file, reqWidth, reqHeight, QrCodeHints, decodeFile, engine, env).result
  {
    ghost var events;
    result, events := ParseCodeResultFromFile(file, reqWidth, reqHeight, QrCodeHints, decodeFile, engine, env);
  }

  /** `parseQRCodeResult(path)`: QR-code hints, default bounds. */
  method ParseQRCodeResult(file: ImageFile, decodeFile: BitmapDecoder, engine: Engine, env: LuminanceEnv)
    returns (result: Option<DecodeResult>)
    ensures result == FileChain(file, 480, 640, QrCodeHints, decodeFile, engine, env).result
  {
    result := ParseQRCodeResultSized(file, DefaultReqWidth, DefaultReqHeight, decodeFile, engine, env);
  }

  /** `parseQRCode(path)`: the text of the QR-code result, or null. */
  method ParseQRCode(file: ImageFile, decodeFile: BitmapDecoder, engine: Engine, env: LuminanceEnv)
    returns (text: Option<string>)
    ensures text == TextOf(FileChain(file, 480, 640, QrCodeHints, decodeFile, engine, env).result)
  {
    var result := ParseQRCodeResult(file, decodeFile, engine, env);
    text := if result.Some? then Some(result.value.text) else None;
  }

  /** `parseCode(Bitmap)`: all formats on an in-memory bitmap. */
  method ParseCodeFromBitmap(bitmap: Option<Image>, engine: Engine, env: LuminanceEnv)
    returns (text: Option<string>)
    ensures text == TextOf(Chain(engine, bitmap, Some(AllHints), env).result)
  {
    var result;
    ghost var events;
    result, events := ParseCodeResult(bitmap, AllHints, engine, env);
    text := if result.Some? then Some(result.value.text) else None;
  }

  // ---------------------------------------------------------------------
  // Properties of the chain

  /** A sweep follows the reference schedule: its attempts are a prefix of
      it, every attempt but the last missed, and there is a result exactly
      when the last attempt hit, in which case it is that attempt's result,
      unchanged. Without construction faults a miss tries the whole plan. */
  lemma {:induction false} SweepFollowsPlan(engine: Engine, image: Image, hints: Option<HintSet>, env: LuminanceEnv, cands: seq<Transform>)
    ensures var run := Sweep(engine, image, hints, env, cands);
      && run.attempts <= PlanOf(cands)
      && (forall i :: 0 <= i < |run.attempts| - 1 ==> !Hit(engine, image, hints, run.attempts[i]))
      && (run.result.Some? <==> run.attempts != [] && Hit(engine, image, hints, Last(run.attempts)))
      && (run.result.Some? ==> run.result.value == engine(image, hints, Last(run.attempts)).result)
      && ((forall k :: 0 <= k < |cands| ==> cands[k] !in env.failing) && run.result.None? ==> run.attempts == PlanOf(cands))
    decreases |cands|
  {
    if cands == [] || cands[0] in env.failing {
    } else {
      var here := SourceRun(engine, image, hints, cands[0]);
      var head := [Attempt(cands[0], Hybrid), Attempt(cands[0], GlobalHistogram)];
      assert PlanOf(cands) == head + PlanOf(cands[1..]);
      if here.result.None? {
        var rest := Sweep(engine, image, hints, env, cands[1..]);
        SweepFollowsPlan(engine, image, hints, env, cands[1..]);
        assert here.attempts == head;
        var all := here.attempts + rest.attempts;
        assert all <= PlanOf(cands);
        forall i | 0 <= i < |all| - 1
          ensures !Hit(engine, image, hints, all[i])
        {
          if i >= 2 {
            assert all[i] == rest.attempts[i - 2];
          }
        }
        if rest.attempts != [] {
          assert Last(all) == Last(rest.attempts);
        }
        if (forall k :: 0 <= k < |cands| ==> cands[k] !in env.failing) {
          assert forall k :: 0 <= k < |cands[1..]| ==> cands[1..][k] == cands[k + 1];
        }
      }
    }
  }

  /** The chain's attempts are a prefix of the plan identity-hybrid,
      identity-histogram, inverted-hybrid, inverted-histogram, and then the
      rotated pair only when rotation is supported; the first result is
      returned unchanged and stops the chain. */
  lemma ChainFollowsPlan(engine: Engine, bitmap: Option<Image>, hints: Option<HintSet>, env: LuminanceEnv)
    ensures var run := Chain(engine, bitmap, hints, env);
      && run.attempts <= Plan(env)
      && (bitmap.Some? ==> forall i :: 0 <= i < |run.attempts| - 1 ==> !Hit(engine, bitmap.value, hints, run.attempts[i]))
      && (run.result.Some? <==> bitmap.Some? && run.attempts != [] && Hit(engine, bitmap.value, hints, Last(run.attempts)))
      && (run.result.Some? ==> run.result.value == engine(bitmap.value, hints, Last(run.attempts)).result)
      && (bitmap.Some? && env.failing == {} && run.result.None? ==> run.attempts == Plan(env))
  {
    if bitmap.Some? {
      SweepFollowsPlan(engine, bitmap.value, hints, env, Candidates(env));
    }
  }

  /** Whatever the chain does, the reader is configured first and reset
      exactly once, last. */
  lemma ResetExactlyOnce(hints: HintSet, run: Run)
    ensures var evs := [SetHintsCall(hints)] + Decodes(run.attempts) + [ResetCall];
      evs[0] == SetHintsCall(hints) && Last(evs) == ResetCall
      && forall i :: 0 <= i < |evs| - 1 ==> evs[i] != ResetCall
  {
    var evs := [SetHintsCall(hints)] + Decodes(run.attempts) + [ResetCall];
    forall i | 0 <= i < |evs| - 1
      ensures evs[i] != ResetCall
    {
      if i > 0 {
        assert evs[i] == Decodes(run.attempts)[i - 1];
      }
    }
  }

  /** The plan, position by position. */
  lemma {:induction false} PlanAt(cands: seq<Transform>, i: nat)
    requires i < 2 * |cands|
    ensures PlanOf(cands)[i] == Attempt(cands[i / 2], if i % 2 == 0 then Hybrid else GlobalHistogram)
    decreases |cands|
  {
    if i >= 2 {
      PlanAt(cands[1..], i - 2);
      assert (i - 2) / 2 + 1 == i / 2 && (i - 2) % 2 == i % 2;
    }
  }

  /** At most six engine calls per chain; the rotated source is tried only
      when the source supports rotation. */
  lemma AttemptBounds(engine: Engine, bitmap: Option<Image>, hints: Option<HintSet>, env: LuminanceEnv)
    ensures var run := Chain(engine, bitmap, hints, env);
      |run.attempts| <= 6
      && (forall i :: 0 <= i < |run.attempts| && run.attempts[i].source == Rotated ==> env.rotateSupported)
  {
    ChainFollowsPlan(engine, bitmap, hints, env);
    var run := Chain(engine, bitmap, hints, env);
    forall i | 0 <= i < |run.attempts| && run.attempts[i].source == Rotated
      ensures env.rotateSupported
    {
      PlanAt(Candidates(env), i);
    }
  }

  /** Within one source the hybrid binarizer runs first: a global-histogram
      attempt is always directly preceded by the hybrid attempt on the same
      source, and that attempt missed. */
  lemma HybridBeforeGlobalHistogram(engine: Engine, image: Image, hints: Option<HintSet>, env: LuminanceEnv, i: nat)
    requires var run := Chain(engine, Some(image), hints, env);
      i < |run.attempts| && run.attempts[i].binarizer == GlobalHistogram
    ensures var run := Chain(engine, Some(image), hints, env);
      0 < i && run.attempts[i - 1] == Attempt(run.attempts[i].source, Hybrid)
      && !Hit(engine, image, hints, run.attempts[i - 1])
  {
    ChainFollowsPlan(engine, Some(image), hints, env);
    PlanAt(Candidates(env), i);
    PlanAt(Candidates(env), i - 1);
  }

  /** A later source is tried only when every attempt on the earlier ones
      missed: in particular, when the identity source decodes, the inverted
      and rotated sources are never tried. */
  lemma IdentityHitShortCircuits(engine: Engine, image: Image, hints: Option<HintSet>, env: LuminanceEnv)
    requires Identity !in env.failing
    requires Hit(engine, image, hints, Attempt(Identity, Hybrid)) || Hit(engine, image, hints, Attempt(Identity, GlobalHistogram))
    ensures var run := Chain(engine, Some(image), hints, env);
      run.result.Some? && forall i :: 0 <= i < |run.attempts| ==> run.attempts[i].source == Identity
  {
  }

  /** Faults are misses: an engine that throws where another reports
      "not found" (and agrees on every result) yields the same chain. */
  lemma {:induction false} FaultsAreMisses(e1: Engine, e2: Engine, image: Image, hints: Option<HintSet>, env: LuminanceEnv, cands: seq<Transform>)
    requires forall a: Attempt :: e1(image, hints, a).Decoded? || e2(image, hints, a).Decoded? ==> e1(image, hints, a) == e2(image, hints, a)
    ensures Sweep(e1, image, hints, env, cands) == Sweep(e2, image, hints, env, cands)
    decreases |cands|
  {
    if cands != [] && cands[0] !in env.failing {
      assert SourceRun(e1, image, hints, cands[0]) == SourceRun(e2, image, hints, cands[0]) by {
        var a := Attempt(cands[0], Hybrid);
        var b := Attempt(cands[0], GlobalHistogram);
        assert e1(image, hints, a).Decoded? == e2(image, hints, a).Decoded?;
        assert e1(image, hints, b).Decoded? == e2(image, hints, b).Decoded?;
      }
      FaultsAreMisses(e1, e2, image, hints, env, cands[1..]);
    }
  }

  // ---------------------------------------------------------------------
  // Properties of the sample size

  /** After sampling, each side is less than twice the requested bound. */
  lemma SampledSidesWithinTwiceRequest(width: Int32, height: Int32, reqWidth: Int32, reqHeight: Int32)
    requires 0 <= width && 0 <= height && 0 < reqWidth && 0 < reqHeight
    ensures var size := InSampleSize(width, height, reqWidth, reqHeight);
      width < 2 * size * reqWidth && height < 2 * size * reqHeight
  {
    var size := InSampleSize(width, height, reqWidth, reqHeight);
    SideWithinTwice(width, reqWidth, size);
    SideWithinTwice(height, reqHeight, size);
  }

  lemma SideWithinTwice(side: int, req: int, size: int)
    requires 0 <= side && 0 < req && 1 <= size
    requires side > req ==> side / req <= size
    ensures side < 2 * size * req
  {
    if side > req {
      var q := side / req;
      assert side == q * req + side % req;
      if q <= 0 {
        MulLe(q, 0, req);
        assert false;
      }
      assert (q + 1) * req == q * req + req;
      MulLe(q + 1, 2 * size, req);
    } else {
      MulLe(1, 2 * size, req);
    }
  }

  lemma MulLe(a: int, b: int, c: int)
    requires a <= b && 0 <= c
    ensures a * c <= b * c
  {
  }

  /** The size never over-shrinks both sides: when it is above 1, at least
      one side still covers its bound `size` times. */
  lemma SampleSizeFitsOneSide(width: Int32, height: Int32, reqWidth: Int32, reqHeight: Int32)
    requires 0 < reqWidth && 0 < reqHeight
    ensures var size := InSampleSize(width, height, reqWidth, reqHeight);
      size > 1 ==> size * reqWidth <= width || size * reqHeight <= height
  {
    var size := InSampleSize(width, height, reqWidth, reqHeight);
    if size > 1 {
      if width > reqWidth && size == width / reqWidth {
        assert size * reqWidth <= width;
      } else {
        assert height > reqHeight && size == height / reqHeight;
        assert size * reqHeight <= height;
      }
    }
  }
}
