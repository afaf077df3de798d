/**
 * Image-type sniffing by magic bytes (the `imghdr` stand-in module).
 *
 * `What` looks at the first bytes of a file, tries thirteen signature tests in a fixed
 * order and reports the name of the first one that matches, or nothing.  Only the path
 * where the header bytes are supplied by the caller is modelled; reading them from a file
 * is I/O and stays outside the model.
 */
module ImageHeader {

  /** One element of a Python `bytes` value. */
  newtype byte = x: int | 0 <= x < 256

  datatype Option<T> = None | Some(value: T)

  /** The formats the module recognises, one per test. */
  datatype ImageType = Jpeg | Png | Gif | Tiff | Rgb | Pbm | Pgm | Ppm | Rast | Xbm | Bmp | Webp | Exr

  /** The string a matching test returns. */
  function Name(t: ImageType): string
  {
    match t
    case Jpeg => "jpeg"
    case Png => "png"
    case Gif => "gif"
    case Tiff => "tiff"
    case Rgb => "rgb"
    case Pbm => "pbm"
    case Pgm => "pgm"
    case Ppm => "ppm"
    case Rast => "rast"
    case Xbm => "xbm"
    case Bmp => "bmp"
    case Webp => "webp"
    case Exr => "exr"
  }

  /** Every name `What` can report, in test order. */
  const KnownNames: seq<string> :=
    ["jpeg", "png", "gif", "tiff", "rgb", "pbm", "pgm", "ppm", "rast", "xbm", "bmp", "webp", "exr"]

  /** The order in which the tests are appended to the module's list of tests. */
  const Tests: seq<ImageType> := [Jpeg, Png, Gif, Tiff, Rgb, Pbm, Pgm, Ppm, Rast, Xbm, Bmp, Webp, Exr]

  // ---------------------------------------------------------------------------
  // Python byte-string primitives
  // ---------------------------------------------------------------------------

  function Min(a: int, b: int): int { if a <= b then a else b }

  /** Python's `h[lo:hi]` for non-negative bounds: both bounds are clamped to `len(h)`. */
  function Slice(h: seq<byte>, lo: nat, hi: nat): (r: seq<byte>)
    ensures lo < hi ==> (|r| == hi - lo <==> hi <= |h|)
    ensures lo <= hi <= |h| ==> r == h[lo..hi]
  {
    var b := Min(hi, |h|);
    var a := Min(lo, b);
    h[a..b]
  }

  /** Python's `h.startswith(p)`. */
  predicate StartsWith(h: seq<byte>, p: seq<byte>)
  {
    |p| <= |h| && h[..|p|] == p
  }

  // ---------------------------------------------------------------------------
  // Signatures (ASCII spelled out where the source writes a byte-string literal)
  // ---------------------------------------------------------------------------

  const JFIF: seq<byte> := [0x4A, 0x46, 0x49, 0x46]                        // "JFIF"
  const EXIF: seq<byte> := [0x45, 0x78, 0x69, 0x66]                        // "Exif"
  const PNG_SIGNATURE: seq<byte> := [0x89, 0x50, 0x4E, 0x47, 0x0D, 0x0A, 0x1A, 0x0A]  // "\211PNG\r\n\032\n"
  const GIF87A: seq<byte> := [0x47, 0x49, 0x46, 0x38, 0x37, 0x61]          // "GIF87a"
  const GIF89A: seq<byte> := [0x47, 0x49, 0x46, 0x38, 0x39, 0x61]          // "GIF89a"
  const TIFF_MOTOROLA: seq<byte> := [0x4D, 0x4D]                           // "MM"
  const TIFF_INTEL: seq<byte> := [0x49, 0x49]                              // "II"
  const SGI_MAGIC: seq<byte> := [0x01, 0xDA]                               // "\001\332"
  const LETTER_P: byte := 0x50                                             // 'P'
  const PBM_DIGITS: seq<byte> := [0x31, 0x34]                              // "14"
  const PGM_DIGITS: seq<byte> := [0x32, 0x35]                              // "25"
  const PPM_DIGITS: seq<byte> := [0x33, 0x36]                              // "36"
  const PNM_WHITESPACE: seq<byte> := [0x20, 0x09, 0x0A, 0x0D]              // " \t\n\r"
  const SUN_RASTER_MAGIC: seq<byte> := [0x59, 0xA6, 0x6A, 0x95]
  const XBM_DEFINE: seq<byte> := [0x23, 0x64, 0x65, 0x66, 0x69, 0x6E, 0x65, 0x20]  // "#define "
  const BMP_MAGIC: seq<byte> := [0x42, 0x4D]                               // "BM"
  const RIFF: seq<byte> := [0x52, 0x49, 0x46, 0x46]                        // "RIFF"
  const WEBP: seq<byte> := [0x57, 0x45, 0x42, 0x50]                        // "WEBP"
  const EXR_MAGIC: seq<byte> := [0x76, 0x2F, 0x31, 0x01]

  // ---------------------------------------------------------------------------
  // The thirteen tests
  // ---------------------------------------------------------------------------

  predicate TestJpeg(h: seq<byte>) { Slice(h, 6, 10) == JFIF || Slice(h, 6, 10) == EXIF }

  predicate TestPng(h: seq<byte>) { StartsWith(h, PNG_SIGNATURE) }

  predicate TestGif(h: seq<byte>) { Slice(h, 0, 6) == GIF87A || Slice(h, 0, 6) == GIF89A }

  predicate TestTiff(h: seq<byte>) { Slice(h, 0, 2) == TIFF_MOTOROLA || Slice(h, 0, 2) == TIFF_INTEL }

  predicate TestRgb(h: seq<byte>) { StartsWith(h, SGI_MAGIC) }

  /** The shared shape of the three portable-anymap tests, with the digits each accepts. */
  predicate TestPnm(h: seq<byte>, digits: seq<byte>)
  {
    |h| >= 3 && h[0] == LETTER_P && h[1] in digits && h[2] in PNM_WHITESPACE
  }

  predicate TestPbm(h: seq<byte>) { TestPnm(h, PBM_DIGITS) }

  predicate TestPgm(h: seq<byte>) { TestPnm(h, PGM_DIGITS) }

  predicate TestPpm(h: seq<byte>) { TestPnm(h, PPM_DIGITS) }

  predicate TestRast(h: seq<byte>) { StartsWith(h, SUN_RASTER_MAGIC) }

  predicate TestXbm(h: seq<byte>) { StartsWith(h, XBM_DEFINE) }

  predicate TestBmp(h: seq<byte>) { StartsWith(h, BMP_MAGIC) }

  predicate TestWebp(h: seq<byte>) { StartsWith(h, RIFF) && Slice(h, 8, 12) == WEBP }

  predicate TestExr(h: seq<byte>) { StartsWith(h, EXR_MAGIC) }

  /** Whether the test for format `t` accepts header `h`. */
  predicate Matches(t: ImageType, h: seq<byte>)
  {
    match t
    case Jpeg => TestJpeg(h)
    case Png => TestPng(h)
    case Gif => TestGif(h)
    case Tiff => TestTiff(h)
    case Rgb => TestRgb(h)
    case Pbm => TestPbm(h)
    case Pgm => TestPgm(h)
    case Ppm => TestPpm(h)
    case Rast => TestRast(h)
    case Xbm => TestXbm(h)
    case Bmp => TestBmp(h)
    case Webp => TestWebp(h)
    case Exr => TestExr(h)
  }

  // ---------------------------------------------------------------------------
  // First match over the ordered list of tests
  // ---------------------------------------------------------------------------

  /** The first format in `tests` whose test accepts `h`. */
  function FirstMatch(tests: seq<ImageType>, h: seq<byte>): (r: Option<ImageType>)
    ensures r.None? <==> forall i | 0 <= i < |tests| :: !Matches(tests[i], h)
    ensures r.Some? ==> r.value in tests && Matches(r.value, h)
  {
    if tests == [] then None
    else if Matches(tests[0], h) then Some(tests[0])
    else FirstMatch(tests[1..], h)
  }

  /** Specification of `What`: the first of the thirteen formats that matches. */
  function Classify(h: seq<byte>): Option<ImageType>
  {
    FirstMatch(Tests, h)
  }

  /** The value `What` returns for a classification. */
  function NameOf(c: Option<ImageType>): Option<string>
  {
    match c
    case None => None
    case Some(t) => Some(Name(t))
  }

  /**
   * `what(file, h)` with `h` supplied: run the tests in order and return the first
   * non-empty answer, or `None` when every test declines.
   */
  method What(h: seq<byte>) returns (r: Option<string>)
    ensures r.None? <==> forall i | 0 <= i < |Tests| :: !Matches(Tests[i], h)
    ensures r.Some? ==> exists i | 0 <= i < |Tests| ::
      r.value == Name(Tests[i]) && Matches(Tests[i], h) && forall j | 0 <= j < i :: !Matches(Tests[j], h)
    ensures r.Some? ==> r.value in KnownNames
    ensures r == NameOf(Classify(h))
  {
    for i := 0 to |Tests|
      invariant forall j | 0 <= j < i :: !Matches(Tests[j], h)
    {
      if Matches(Tests[i], h) {
        FirstMatchIsEarliest(Tests, h, i);
        return Some(Name(Tests[i]));
      }
    }
    return None;
  }

  // ---------------------------------------------------------------------------
  // Properties of the search and of the individual tests
  // ---------------------------------------------------------------------------

  /** The search returns the test at `k` exactly when it is the earliest test that matches. */
  lemma {:induction false} FirstMatchIsEarliest(tests: seq<ImageType>, h: seq<byte>, k: nat)
    requires k < |tests| && Matches(tests[k], h)
    requires forall j | 0 <= j < k :: !Matches(tests[j], h)
    ensures FirstMatch(tests, h) == Some(tests[k])
  {
    if k > 0 {
      assert !Matches(tests[0], h);
      forall j | 0 <= j < k - 1 ensures !Matches(tests[1..][j], h) {
        assert tests[1..][j] == tests[j + 1];
      }
      FirstMatchIsEarliest(tests[1..], h, k - 1);
    }
  }

  /** Conversely, whatever the search returns is preceded only by tests that decline. */
  lemma {:induction false} FirstMatchHasEarliestIndex(tests: seq<ImageType>, h: seq<byte>)
    requires FirstMatch(tests, h).Some?
    ensures exists k | 0 <= k < |tests| ::
      tests[k] == FirstMatch(tests, h).value && Matches(tests[k], h) && forall j | 0 <= j < k :: !Matches(tests[j], h)
  {
    if !Matches(tests[0], h) {
      FirstMatchHasEarliestIndex(tests[1..], h);
      var k :| 0 <= k < |tests[1..]| && tests[1..][k] == FirstMatch(tests[1..], h).value
        && Matches(tests[1..][k], h) && forall j | 0 <= j < k :: !Matches(tests[1..][j], h);
      assert tests[k + 1] == tests[1..][k];
      forall j | 0 <= j < k + 1 ensures !Matches(tests[j], h) {
        if j > 0 { assert tests[j] == tests[1..][j - 1]; }
      }
    } else {
      assert tests[0] == FirstMatch(tests, h).value;
    }
  }

  /** `Name` tells the formats apart, so the reported name identifies the format. */
  lemma NameIsInjective(s: ImageType, t: ImageType)
    requires Name(s) == Name(t)
    ensures s == t
  {
  }

  /** An empty header matches no test, so nothing is reported. */
  lemma EmptyHeaderIsUnknown()
    ensures Classify([]) == None
  {
    var e: seq<byte> := [];
    assert Slice(e, 6, 10) == [] && Slice(e, 0, 6) == [] && Slice(e, 0, 2) == [] && Slice(e, 8, 12) == [];
    forall t: ImageType ensures !Matches(t, e) {
    }
  }

  /** JPEG needs ten bytes: `JFIF` or `Exif` at offsets 6..9. */
  lemma JpegNeedsTenBytes(h: seq<byte>)
    ensures TestJpeg(h) <==> |h| >= 10 && (h[6..10] == JFIF || h[6..10] == EXIF)
  {
  }

  /** PNG is recognised exactly by its eight-byte signature. */
  lemma PngIsSignaturePrefix(h: seq<byte>)
    ensures TestPng(h) <==> |h| >= 8 && h[..8] == PNG_SIGNATURE
  {
  }

  /** WebP needs both the `RIFF` container prefix and `WEBP` at offsets 8..11. */
  lemma WebpNeedsRiffAndWebp(h: seq<byte>)
    ensures TestWebp(h) <==> |h| >= 12 && h[..4] == RIFF && h[8..12] == WEBP
  {
  }

  /** The remaining tests each look for a fixed magic number at the very start of the header. */
  lemma PrefixTestsAreMagicNumbers(h: seq<byte>)
    ensures TestGif(h) <==> |h| >= 6 && (h[..6] == GIF87A || h[..6] == GIF89A)
    ensures TestTiff(h) <==> |h| >= 2 && (h[..2] == TIFF_MOTOROLA || h[..2] == TIFF_INTEL)
    ensures TestRgb(h) <==> |h| >= 2 && h[..2] == SGI_MAGIC
    ensures TestRast(h) <==> |h| >= 4 && h[..4] == SUN_RASTER_MAGIC
    ensures TestXbm(h) <==> |h| >= 8 && h[..8] == XBM_DEFINE
    ensures TestBmp(h) <==> |h| >= 2 && h[..2] == BMP_MAGIC
    ensures TestExr(h) <==> |h| >= 4 && h[..4] == EXR_MAGIC
  {
  }

  /** Each portable-anymap test needs three bytes: `P`, one of its digits, a whitespace byte. */
  lemma PnmShape(h: seq<byte>, digits: seq<byte>)
    requires digits in [PBM_DIGITS, PGM_DIGITS, PPM_DIGITS]
    ensures TestPnm(h, digits) <==>
      |h| >= 3 && h[0] == 0x50 && (h[1] == digits[0] || h[1] == digits[1]) &&
      (h[2] == 0x20 || h[2] == 0x09 || h[2] == 0x0A || h[2] == 0x0D)
  {
  }

  /** The digit sets of PBM, PGM and PPM are disjoint, so at most one of the three matches. */
  lemma PnmTestsAreExclusive(h: seq<byte>)
    ensures !(TestPbm(h) && TestPgm(h))
    ensures !(TestPbm(h) && TestPpm(h))
    ensures !(TestPgm(h) && TestPpm(h))
  {
  }

  /** Order matters: a `BM` header that also carries `JFIF` at offset 6 is reported as JPEG. */
  lemma JpegShadowsBmp(h: seq<byte>)
    requires StartsWith(h, BMP_MAGIC) && |h| >= 10 && h[6..10] == JFIF
    ensures TestBmp(h)
    ensures Classify(h) == Some(Jpeg)
  {
    FirstMatchIsEarliest(Tests, h, 0);
  }

  /** A header starting `MM` or `II` is TIFF unless the JPEG test, the only earlier one that can match, fires. */
  lemma TiffUnlessJpeg(h: seq<byte>)
    requires StartsWith(h, TIFF_MOTOROLA) || StartsWith(h, TIFF_INTEL)
    ensures Classify(h) == if TestJpeg(h) then Some(Jpeg) else Some(Tiff)
  {
    assert h[..2] == Slice(h, 0, 2);
    if TestJpeg(h) {
      FirstMatchIsEarliest(Tests, h, 0);
    } else {
      assert h[0] == h[..2][0] && h[0] != 0x89 && h[0] != 0x47 && h[0] != 0x01;
      assert !TestPng(h) by { if |h| >= 8 { assert h[..8][0] == h[0]; } }
      assert !TestGif(h) by { if |h| >= 6 { assert h[..6][0] == h[0]; } }
      assert !TestRgb(h);
      FirstMatchIsEarliest(Tests, h, 3);
    }
  }
}
