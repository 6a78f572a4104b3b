/**
 * Layer 0: the structural and quality checks run on every uploaded photo before any
 * ML inference or network call. Every pixel, file-system and EXIF measurement the
 * checks make is an input (`Measurements`); what is modelled is the threshold logic,
 * the routing of failed checks into errors and warnings, and the weighted quality score.
 */
module InputValidator {
  import opened Wrappers

  // ---------------------------------------------------------------------------
  // Thresholds
  // ---------------------------------------------------------------------------

  const MIN_BLUR_SCORE: real := 100.0
  const MIN_BRIGHTNESS: real := 30.0
  const MAX_BRIGHTNESS: real := 230.0
  const MIN_WIDTH: nat := 300
  const MIN_HEIGHT: nat := 300
  const MAX_PHOTO_AGE_DAYS: int := 30

  /** Bounding box of the service region (Pakistan), inclusive. */
  const REGION_LAT_MIN: real := 23.0
  const REGION_LAT_MAX: real := 37.0
  const REGION_LON_MIN: real := 60.0
  const REGION_LON_MAX: real := 78.0

  const MIN_FILE_SIZE: int := 10 * 1024
  const MAX_FILE_SIZE: int := 10 * 1024 * 1024
  const MAX_IMAGE_WIDTH: nat := 10000
  const MAX_IMAGE_HEIGHT: nat := 10000
  const MIN_ASPECT_RATIO: real := 0.5
  const MAX_ASPECT_RATIO: real := 2.0
  const MIN_CONTENT_STD_DEV: real := 5.0

  const ALLOWED_COLOR_MODES: set<string> := {"RGB", "RGBA", "L", "P"}

  /** Width:height ratios of common phone screenshots. */
  const SCREENSHOT_RATIOS: seq<(nat, nat)> := [(16, 9), (9, 16), (18, 9), (19, 9)]
  const SCREENSHOT_TOLERANCE: real := 0.05

  /** Aspect ratios the aspect-ratio score is measured against. */
  const IDEAL_RATIOS: seq<real> := [1.0, 1.33, 1.5, 0.75, 0.67]

  // ---------------------------------------------------------------------------
  // Check results
  // ---------------------------------------------------------------------------

  datatype CheckName =
    | FileSize | FileValidity | ColorMode | DimensionLimits | AspectRatio
    | Resolution | BlurDetection | Brightness | ContentValidation
    | Timestamp | ScreenshotDetection | GpsValidation

  /**
   * Which message a check produced. The rendered text (with its formatted numbers)
   * is not modelled; one constructor stands for each distinct message of the source.
   */
  datatype Message =
    | FileSizeUnreadable | FileTooSmall | FileTooLarge | FileSizeAcceptable
    | FileMissing | ExtensionNotAllowed | CorruptImage | ValidImageFile
    | ColorModeUnreadable | UnsupportedColorMode | ColorModeAccepted
    | DimensionsUnreadable | DimensionsTooLarge | DimensionsSafe
    | AspectRatioUnreadable | AspectRatioDistorted | AspectRatioAcceptable
    | ResolutionUnreadable | ResolutionTooLow | ResolutionGood
    | BlurUnreadable | TooBlurry | Sharp
    | BrightnessUnreadable | TooDark | TooBright | BrightnessGood
    | ContentUnreadable | BlankImage | ContentPresent
    | NoExifTimestamp | NoTimestampInExif | TimestampUnparseable | TimestampUnreadable
    | PhotoTooOld | PhotoRecent
    | ScreenshotSuspected | OriginalPhoto | ScreenshotCheckSkipped
    | GpsMissing | GpsOutsideRegion | GpsInsideRegion

  /**
   * The messages whose text contains "warning" in any letter case: the four
   * "accepted with warning" timestamp fallbacks and the screenshot warning.
   */
  predicate MentionsWarning(m: Message)
  {
    m in {NoExifTimestamp, NoTimestampInExif, TimestampUnparseable, TimestampUnreadable, ScreenshotSuspected}
  }

  datatype Check = Check(name: CheckName, passed: bool, score: real, message: Message)

  // ---------------------------------------------------------------------------
  // Measurements (inputs)
  // ---------------------------------------------------------------------------

  /** What opening the file tells: missing, wrong extension, undecodable, or a valid image. */
  datatype FileProbe = Missing | BadExtension | Undecodable | Decodable

  /** The first DateTime* EXIF tag: absent, not in `%Y:%m:%d %H:%M:%S`, or its age in whole days. */
  datatype DateTimeProbe = NoDateTimeTag | Unparseable | AgeDays(days: int)

  /** `_getexif()`: raises (e.g. a PNG), returns None, or a dictionary with `count` entries. */
  datatype ExifProbe = ExifRaises | NoExif | ExifTags(count: nat, dateTime: DateTimeProbe)

  /** What PIL reports about an image it could open. */
  datatype PilImage = PilImage(width: nat, height: nat, mode: string, exif: ExifProbe)

  /**
   * Everything the twelve checks measure. `None` stands for a measurement whose
   * library call failed (raised, or returned no image).
   */
  datatype Measurements = Measurements(
    fileSize: Option<int>,            // os.path.getsize
    file: FileProbe,                  // existence, extension, Image.verify/load
    image: Option<PilImage>,          // Image.open
    laplacianVariance: Option<real>,  // cv2 grayscale Laplacian variance
    meanIntensity: Option<real>,      // cv2 grayscale mean
    intensityStdDev: Option<real>,    // std-dev of the colour image converted to gray
    latitude: Option<real>,
    longitude: Option<real>)

  function Min(a: real, b: real): real { if a <= b then a else b }
  function Max(a: real, b: real): real { if a >= b then a else b }
  function Abs(x: real): real { if x >= 0.0 then x else -x }

  /**
   * `round(x, 2)`: the nearest multiple of 0.01, a midway value going up. It is
   * never more than half a hundredth away from `x`.
   */
  function Round2(x: real): (r: real)
    ensures x - 0.005 < r <= x + 0.005
  {
    (x * 100.0 + 0.5).Floor as real / 100.0
  }

  /** Rounding keeps order. */
  lemma Round2Monotone(x: real, y: real)
    requires x <= y
    ensures Round2(x) <= Round2(y)
  {
    assert (x * 100.0 + 0.5).Floor <= (y * 100.0 + 0.5).Floor;
  }

  /** A whole number is its own rounding. */
  lemma Round2Whole(n: int)
    ensures Round2(n as real) == n as real
  {
    assert (n as real * 100.0 + 0.5).Floor == n * 100;
  }

  /** Rounding a value within whole bounds stays within them. */
  lemma Round2Between(x: real, lo: int, hi: int)
    ensures lo as real <= x <= hi as real ==> lo as real <= Round2(x) <= hi as real
  {
    if lo as real <= x <= hi as real {
      Round2Monotone(lo as real, x);
      Round2Monotone(x, hi as real);
      Round2Whole(lo);
      Round2Whole(hi);
    }
  }

  // ---------------------------------------------------------------------------
  // The twelve checks
  // ---------------------------------------------------------------------------

  /** File size: 10 KB to 10 MB inclusive; full score up to 5 MB, then falling to no less than 50. */
  function FileSizeCheck(size: Option<int>): (c: Check)
    ensures c.name == FileSize
    ensures c.passed <==> size.Some? && MIN_FILE_SIZE <= size.value <= MAX_FILE_SIZE
    ensures c.passed ==> 50.0 <= c.score <= 100.0
    ensures !c.passed ==> c.score == 0.0
    ensures size.Some? && size.value < MIN_FILE_SIZE ==> c.message == FileTooSmall
    ensures size.Some? && size.value > MAX_FILE_SIZE ==> c.message == FileTooLarge
  {
    match size
    case None => Check(FileSize, false, 0.0, FileSizeUnreadable)
    case Some(n) =>
      if n < MIN_FILE_SIZE then Check(FileSize, false, 0.0, FileTooSmall)
      else if n > MAX_FILE_SIZE then Check(FileSize, false, 0.0, FileTooLarge)
      else
        var mb := n as real / (1024.0 * 1024.0);
        var score := if mb <= 5.0 then 100.0 else Max(50.0, 100.0 - ((mb - 5.0) / 5.0) * 20.0);
        Round2Between(score, 50, 100);
        Check(FileSize, true, Round2(score), FileSizeAcceptable)
  }

  /** File validity: the file exists, has an allowed extension and decodes. */
  function FileValidityCheck(f: FileProbe): (c: Check)
    ensures c.name == FileValidity
    ensures c.passed <==> f == Decodable
    ensures c.score == if c.passed then 100.0 else 0.0
  {
    match f
    case Missing => Check(FileValidity, false, 0.0, FileMissing)
    case BadExtension => Check(FileValidity, false, 0.0, ExtensionNotAllowed)
    case Undecodable => Check(FileValidity, false, 0.0, CorruptImage)
    case Decodable => Check(FileValidity, true, 100.0, ValidImageFile)
  }

  /** Colour mode: one of RGB, RGBA, L, P. */
  function ColorModeCheck(img: Option<PilImage>): (c: Check)
    ensures c.name == ColorMode
    ensures c.passed <==> img.Some? && img.value.mode in ALLOWED_COLOR_MODES
    ensures c.score == if c.passed then 100.0 else 0.0
  {
    match img
    case None => Check(ColorMode, false, 0.0, ColorModeUnreadable)
    case Some(i) =>
      if i.mode !in ALLOWED_COLOR_MODES then Check(ColorMode, false, 0.0, UnsupportedColorMode)
      else Check(ColorMode, true, 100.0, ColorModeAccepted)
  }

  /** Dimension limits: neither side above 10000 pixels (decompression-bomb guard). */
  function DimensionsCheck(img: Option<PilImage>): (c: Check)
    ensures c.name == DimensionLimits
    ensures c.passed <==> img.Some? && img.value.width <= MAX_IMAGE_WIDTH && img.value.height <= MAX_IMAGE_HEIGHT
    ensures c.score == if c.passed then 100.0 else 0.0
  {
    match img
    case None => Check(DimensionLimits, false, 0.0, DimensionsUnreadable)
    case Some(i) =>
      if i.width > MAX_IMAGE_WIDTH || i.height > MAX_IMAGE_HEIGHT then
        Check(DimensionLimits, false, 0.0, DimensionsTooLarge)
      else Check(DimensionLimits, true, 100.0, DimensionsSafe)
  }

  /** width / height, or 0 for a zero height. */
  function Ratio(width: nat, height: nat): (r: real)
    ensures r >= 0.0
    ensures height > 0 ==> r * (height as real) == width as real
  {
    if height > 0 then width as real / height as real else 0.0
  }

  /** The smallest distance from `x` to any of `ideals` (the source's `min(...)` over a generator). */
  function MinDistance(x: real, ideals: seq<real>): (d: real)
    requires |ideals| > 0
    ensures d >= 0.0
    ensures forall i :: 0 <= i < |ideals| ==> d <= Abs(x - ideals[i])
    ensures exists i :: 0 <= i < |ideals| && d == Abs(x - ideals[i])
  {
    if |ideals| == 1 then Abs(x - ideals[0])
    else
      var rest := MinDistance(x, ideals[1..]);
      assert forall i :: 1 <= i < |ideals| ==> ideals[i] == ideals[1..][i - 1];
      Min(Abs(x - ideals[0]), rest)
  }

  /** Aspect ratio: within [0.5, 2.0]; score 100 less 30 per unit away from the nearest ideal ratio, at least 70. */
  function AspectRatioCheck(img: Option<PilImage>): (c: Check)
    ensures c.name == AspectRatio
    ensures c.passed <==>
      (img.Some? && MIN_ASPECT_RATIO <= Ratio(img.value.width, img.value.height) <= MAX_ASPECT_RATIO)
    ensures c.passed ==> 70.0 <= c.score <= 100.0
    ensures !c.passed ==> c.score == 0.0
  {
    match img
    case None => Check(AspectRatio, false, 0.0, AspectRatioUnreadable)
    case Some(i) =>
      var ratio := Ratio(i.width, i.height);
      if ratio < MIN_ASPECT_RATIO || ratio > MAX_ASPECT_RATIO then
        Check(AspectRatio, false, 0.0, AspectRatioDistorted)
      else
        var score := Max(70.0, 100.0 - MinDistance(ratio, IDEAL_RATIOS) * 30.0);
        Round2Between(score, 70, 100);
        Check(AspectRatio, true, Round2(score), AspectRatioAcceptable)
  }

  /**
   * Resolution: at least 300x300; the score is the smaller side ratio as a
   * percentage capped at 100, rounded to two places. A side of 299 pixels scores
   * at most 99.67, so the score is 100 exactly when the check passes.
   */
  function ResolutionCheck(img: Option<PilImage>): (c: Check)
    ensures c.name == Resolution
    ensures c.passed <==> img.Some? && img.value.width >= MIN_WIDTH && img.value.height >= MIN_HEIGHT
    ensures 0.0 <= c.score <= 100.0
    ensures img.Some? ==> (c.passed <==> c.score == 100.0)
    ensures img.Some? ==>
      var exact := Min(100.0, Min(img.value.width as real / 300.0, img.value.height as real / 300.0) * 100.0);
      exact - 0.005 < c.score <= exact + 0.005
  {
    match img
    case None => Check(Resolution, false, 0.0, ResolutionUnreadable)
    case Some(i) =>
      var widthRatio := i.width as real / MIN_WIDTH as real;
      var heightRatio := i.height as real / MIN_HEIGHT as real;
      var score := Min(100.0, Min(widthRatio, heightRatio) * 100.0);
      Round2Between(score, 0, 100);
      if i.width >= MIN_WIDTH && i.height >= MIN_HEIGHT then
        Round2Whole(100);
        Check(Resolution, true, Round2(score), ResolutionGood)
      else
        ResolutionBelowFull(i.width, i.height, score);
        Check(Resolution, false, Round2(score), ResolutionTooLow)
  }

  /** A side under 300 pixels keeps the rounded resolution score under 100. */
  lemma ResolutionBelowFull(width: nat, height: nat, score: real)
    requires width < MIN_WIDTH || height < MIN_HEIGHT
    requires score == Min(100.0, Min(width as real / 300.0, height as real / 300.0) * 100.0)
    ensures Round2(score) < 100.0
  {
    assert score <= 299.0 / 3.0;
    Round2Monotone(score, 299.0 / 3.0);
    assert (299.0 / 3.0 * 100.0 + 0.5).Floor == 9967;
  }

  /**
   * Blur: the Laplacian variance must reach 100.0; the score is the variance capped
   * at 100, rounded to two places. The rounding lets a variance in [99.995, 100)
   * fail the check with a score of 100.
   */
  function BlurCheck(variance: Option<real>): (c: Check)
    ensures c.name == BlurDetection
    ensures c.passed <==> variance.Some? && variance.value >= MIN_BLUR_SCORE
    ensures c.score <= 100.0
    ensures c.passed ==> c.score == 100.0
    ensures variance.Some? ==> (c.score == 100.0 <==> variance.value >= 99.995)
    ensures variance.Some? ==>
      Min(100.0, variance.value) - 0.005 < c.score <= Min(100.0, variance.value) + 0.005
  {
    match variance
    case None => Check(BlurDetection, false, 0.0, BlurUnreadable)
    case Some(v) =>
      var score := Min(100.0, (v / MIN_BLUR_SCORE) * 100.0);
      Round2Whole(100);
      Round2Monotone(score, 100.0);
      if v >= MIN_BLUR_SCORE then Check(BlurDetection, true, Round2(score), Sharp)
      else Check(BlurDetection, false, Round2(score), TooBlurry)
  }

  /** A variance just under the minimum fails the blur check yet reports the full score. */
  lemma BlurRoundingGap()
    ensures BlurCheck(Some(99.996)) == Check(BlurDetection, false, 100.0, TooBlurry)
  {
    assert (99.996 * 100.0 + 0.5).Floor == 10000;
  }

  /** Brightness: mean intensity below 30 is too dark, above 230 too bright, 30..230 inclusive passes. */
  function BrightnessCheck(mean: Option<real>): (c: Check)
    ensures c.name == Brightness
    ensures c.passed <==> mean.Some? && MIN_BRIGHTNESS <= mean.value <= MAX_BRIGHTNESS
    ensures c.message == TooDark <==> mean.Some? && mean.value < MIN_BRIGHTNESS
    ensures c.message == TooBright <==> mean.Some? && mean.value > MAX_BRIGHTNESS
    ensures mean.Some? ==> mean.value * 100.0 / 255.0 - 0.005 < c.score <= mean.value * 100.0 / 255.0 + 0.005
    ensures mean.Some? && 0.0 <= mean.value <= 255.0 ==> 0.0 <= c.score <= 100.0
  {
    match mean
    case None => Check(Brightness, false, 0.0, BrightnessUnreadable)
    case Some(m) =>
      var score := (m / 255.0) * 100.0;
      assert 0.0 <= m <= 255.0 ==> 0.0 <= score <= 100.0;
      Round2Between(score, 0, 100);
      if m < MIN_BRIGHTNESS then Check(Brightness, false, Round2(score), TooDark)
      else if m > MAX_BRIGHTNESS then Check(Brightness, false, Round2(score), TooBright)
      else Check(Brightness, true, Round2(score), BrightnessGood)
  }

  /** Content: an intensity standard deviation below 5 means a blank or uniform image. */
  function ContentCheck(stdDev: Option<real>): (c: Check)
    ensures c.name == ContentValidation
    ensures c.passed <==> stdDev.Some? && stdDev.value >= MIN_CONTENT_STD_DEV
    ensures c.score <= 100.0
    ensures !c.passed ==> c.score == 0.0
  {
    match stdDev
    case None => Check(ContentValidation, false, 0.0, ContentUnreadable)
    case Some(s) =>
      if s < MIN_CONTENT_STD_DEV then Check(ContentValidation, false, 0.0, BlankImage)
      else
        var score := Min(100.0, (s / 50.0) * 100.0);
        Round2Between(score, 10, 100);
        Check(ContentValidation, true, Round2(score), ContentPresent)
  }

  /** The photo's age in days, when its EXIF time could be read and parsed. */
  function PhotoAge(img: Option<PilImage>): Option<int>
  {
    if img.Some? && img.value.exif.ExifTags? && img.value.exif.dateTime.AgeDays? then
      Some(img.value.exif.dateTime.days)
    else None
  }

  /**
   * Timestamp: fails only for a photo more than 30 days old. A missing, unreadable or
   * unparseable EXIF time passes with score 50. The score of a dated photo is
   * 100 - age/30*100, floored at 0 but not capped: a future date scores above 100.
   */
  function TimestampCheck(img: Option<PilImage>): (c: Check)
    ensures c.name == Timestamp
    ensures c.passed <==> !(PhotoAge(img).Some? && PhotoAge(img).value > MAX_PHOTO_AGE_DAYS)
    ensures PhotoAge(img).None? ==> c.score == 50.0 && MentionsWarning(c.message)
    ensures PhotoAge(img).Some? ==> c.score >= 0.0 && (PhotoAge(img).value >= 0 ==> c.score <= 100.0)
  {
    match img
    case None => Check(Timestamp, true, 50.0, TimestampUnreadable)
    case Some(i) =>
      match i.exif
      case ExifRaises => Check(Timestamp, true, 50.0, TimestampUnreadable)
      case NoExif => Check(Timestamp, true, 50.0, NoExifTimestamp)
      case ExifTags(_, dt) =>
        match dt
        case NoDateTimeTag => Check(Timestamp, true, 50.0, NoTimestampInExif)
        case Unparseable => Check(Timestamp, true, 50.0, TimestampUnparseable)
        case AgeDays(days) =>
          var score := Max(0.0, 100.0 - (days as real / MAX_PHOTO_AGE_DAYS as real) * 100.0);
          Round2Monotone(0.0, score);
          Round2Whole(0);
          Round2Between(score, 0, 100);
          if days > MAX_PHOTO_AGE_DAYS then Check(Timestamp, false, Round2(score), PhotoTooOld)
          else Check(Timestamp, true, Round2(score), PhotoRecent)
  }

  /** The ratio is within 0.05 of one of the screenshot ratios. */
  predicate IsScreenshotRatio(ratio: real)
  {
    exists k :: 0 <= k < |SCREENSHOT_RATIOS| &&
      Abs(ratio - SCREENSHOT_RATIOS[k].0 as real / SCREENSHOT_RATIOS[k].1 as real) < SCREENSHOT_TOLERANCE
  }

  /** The source's search loop over the screenshot ratios, stopping at the first match. */
  method MatchesScreenshotRatio(ratio: real) returns (found: bool)
    ensures found <==> IsScreenshotRatio(ratio)
  {
    found := false;
    var k := 0;
    while k < |SCREENSHOT_RATIOS|
      invariant 0 <= k <= |SCREENSHOT_RATIOS|
      invariant found ==> IsScreenshotRatio(ratio)
      invariant !found ==> forall j :: 0 <= j < k ==>
        Abs(ratio - SCREENSHOT_RATIOS[j].0 as real / SCREENSHOT_RATIOS[j].1 as real) >= SCREENSHOT_TOLERANCE
    {
      var (w, h) := SCREENSHOT_RATIOS[k];
      if Abs(ratio - w as real / h as real) < SCREENSHOT_TOLERANCE {
        found := true;
        break;
      }
      k := k + 1;
    }
  }

  /**
   * Screenshot detection never fails: a screenshot-like ratio together with a missing
   * or minimal (fewer than 5 entries) EXIF gives a warning and score 60.
   */
  function ScreenshotCheck(img: Option<PilImage>): (c: Check)
    ensures c.name == ScreenshotDetection && c.passed
    ensures c.message == ScreenshotSuspected <==>
      img.Some? && !img.value.exif.ExifRaises? &&
      IsScreenshotRatio(Ratio(img.value.width, img.value.height)) &&
      (img.value.exif.NoExif? || img.value.exif.count < 5)
    ensures c.score == match c.message
      case ScreenshotSuspected => 60.0
      case OriginalPhoto => 100.0
      case _ => 80.0
  {
    match img
    case None => Check(ScreenshotDetection, true, 80.0, ScreenshotCheckSkipped)
    case Some(i) =>
      if i.exif.ExifRaises? then Check(ScreenshotDetection, true, 80.0, ScreenshotCheckSkipped)
      else
        var minimalExif := i.exif.NoExif? || i.exif.count < 5;
        if IsScreenshotRatio(Ratio(i.width, i.height)) && minimalExif then
          Check(ScreenshotDetection, true, 60.0, ScreenshotSuspected)
        else Check(ScreenshotDetection, true, 100.0, OriginalPhoto)
  }

  /** The submitted point lies in the region's bounding box, boundaries included. */
  predicate InRegion(lat: real, lon: real)
  {
    REGION_LAT_MIN <= lat <= REGION_LAT_MAX && REGION_LON_MIN <= lon <= REGION_LON_MAX
  }

  /** GPS: both coordinates are required and must lie in the region. */
  function GpsCheck(lat: Option<real>, lon: Option<real>): (c: Check)
    ensures c.name == GpsValidation
    ensures c.passed <==> lat.Some? && lon.Some? && InRegion(lat.value, lon.value)
    ensures (lat.None? || lon.None?) ==> c.message == GpsMissing
    ensures c.score == if c.passed then 100.0 else 0.0
  {
    if lat.None? || lon.None? then Check(GpsValidation, false, 0.0, GpsMissing)
    else if InRegion(lat.value, lon.value) then Check(GpsValidation, true, 100.0, GpsInsideRegion)
    else Check(GpsValidation, false, 0.0, GpsOutsideRegion)
  }

  /** Twelve checks named as `validate_all` orders them. */
  predicate InCheckOrder(cs: seq<Check>)
  {
    |cs| == 12 &&
    cs[0].name == FileSize && cs[1].name == FileValidity && cs[2].name == ColorMode &&
    cs[3].name == DimensionLimits && cs[4].name == AspectRatio && cs[5].name == Resolution &&
    cs[6].name == BlurDetection && cs[7].name == Brightness && cs[8].name == ContentValidation &&
    cs[9].name == Timestamp && cs[10].name == ScreenshotDetection && cs[11].name == GpsValidation
  }

  /** The critical security checks, run first. */
  function SecurityChecks(m: Measurements): (cs: seq<Check>)
    ensures |cs| == 5
    ensures cs[0].name == FileSize && cs[1].name == FileValidity && cs[2].name == ColorMode
    ensures cs[3].name == DimensionLimits && cs[4].name == AspectRatio
  {
    [FileSizeCheck(m.fileSize), FileValidityCheck(m.file), ColorModeCheck(m.image),
     DimensionsCheck(m.image), AspectRatioCheck(m.image)]
  }

  /** The quality checks. */
  function QualityChecks(m: Measurements): (cs: seq<Check>)
    ensures |cs| == 4
    ensures cs[0].name == Resolution && cs[1].name == BlurDetection
    ensures cs[2].name == Brightness && cs[3].name == ContentValidation
  {
    [ResolutionCheck(m.image), BlurCheck(m.laplacianVariance), BrightnessCheck(m.meanIntensity),
     ContentCheck(m.intensityStdDev)]
  }

  /** The metadata checks. */
  function MetadataChecks(m: Measurements): (cs: seq<Check>)
    ensures |cs| == 2
    ensures cs[0].name == Timestamp && cs[1].name == ScreenshotDetection
  {
    [TimestampCheck(m.image), ScreenshotCheck(m.image)]
  }

  /** The twelve checks of `validate_all`, in their fixed order, the GPS check last. */
  function RunChecks(m: Measurements): (cs: seq<Check>)
    ensures |cs| == 12
    ensures InCheckOrder(cs)
  {
    var sec, qual, meta, gps := SecurityChecks(m), QualityChecks(m), MetadataChecks(m), GpsCheck(m.latitude, m.longitude);
    GroupsInCheckOrder(sec, qual, meta, gps);
    sec + qual + meta + [gps]
  }

  lemma GroupsInCheckOrder(sec: seq<Check>, qual: seq<Check>, meta: seq<Check>, gps: Check)
    requires |sec| == 5 && |qual| == 4 && |meta| == 2
    requires sec[0].name == FileSize && sec[1].name == FileValidity && sec[2].name == ColorMode
    requires sec[3].name == DimensionLimits && sec[4].name == AspectRatio
    requires qual[0].name == Resolution && qual[1].name == BlurDetection
    requires qual[2].name == Brightness && qual[3].name == ContentValidation
    requires meta[0].name == Timestamp && meta[1].name == ScreenshotDetection
    requires gps.name == GpsValidation
    ensures InCheckOrder(sec + qual + meta + [gps])
  {
  }

  // ---------------------------------------------------------------------------
  // Routing into errors and warnings
  // ---------------------------------------------------------------------------

  /** The five checks whose failure rejects the report. */
  predicate IsCritical(name: CheckName)
  {
    name in {FileValidity, Resolution, BlurDetection, Brightness, GpsValidation}
  }

  predicate IsError(c: Check) { !c.passed && IsCritical(c.name) }

  predicate IsWarning(c: Check) { (!c.passed && !IsCritical(c.name)) || (c.passed && MentionsWarning(c.message)) }

  /** The messages of the failed critical checks, in check order. */
  function ErrorsOf(cs: seq<Check>): (r: seq<Message>)
    ensures |r| <= |cs|
  {
    if cs == [] then []
    else
      var last := cs[|cs| - 1];
      ErrorsOf(cs[..|cs| - 1]) + (if IsError(last) then [last.message] else [])
  }

  /** The messages of the other failed checks and of passed checks that mention a warning. */
  function WarningsOf(cs: seq<Check>): (r: seq<Message>)
    ensures |r| <= |cs|
  {
    if cs == [] then []
    else
      var last := cs[|cs| - 1];
      WarningsOf(cs[..|cs| - 1]) + (if IsWarning(last) then [last.message] else [])
  }

  lemma {:induction false} ErrorsEmptyIff(cs: seq<Check>)
    ensures ErrorsOf(cs) == [] <==> forall i :: 0 <= i < |cs| ==> !IsError(cs[i])
  {
    if cs != [] {
      var prefix := cs[..|cs| - 1];
      ErrorsEmptyIff(prefix);
      assert forall i :: 0 <= i < |prefix| ==> prefix[i] == cs[i];
    }
  }

  /** For the twelve checks in their fixed order, there is no error exactly when the five critical ones passed. */
  lemma {:induction false} ErrorsEmptyIffCriticalPassed(cs: seq<Check>)
    requires InCheckOrder(cs)
    ensures ErrorsOf(cs) == [] <==> cs[1].passed && cs[5].passed && cs[6].passed && cs[7].passed && cs[11].passed
  {
    ErrorsEmptyIff(cs);
    assert IsCritical(cs[1].name) && IsCritical(cs[5].name) && IsCritical(cs[6].name) && IsCritical(cs[7].name) && IsCritical(cs[11].name);
    assert !IsCritical(cs[0].name) && !IsCritical(cs[2].name) && !IsCritical(cs[3].name) && !IsCritical(cs[4].name);
    assert !IsCritical(cs[8].name) && !IsCritical(cs[9].name) && !IsCritical(cs[10].name);
  }

  /** No check's message is routed both to the errors and to the warnings, and a failed check is always routed. */
  lemma RoutingIsAPartition(c: Check)
    ensures !(IsError(c) && IsWarning(c))
    ensures !c.passed ==> IsError(c) || IsWarning(c)
  {
  }

  // ---------------------------------------------------------------------------
  // Quality score
  // ---------------------------------------------------------------------------

  /** The weight of each check in the quality score (the source's default 1.0 is never needed). */
  function Weight(name: CheckName): (w: real)
    ensures w > 0.0
  {
    match name
    case FileSize => 2.0
    case FileValidity => 2.0
    case ColorMode => 1.8
    case DimensionLimits => 2.0
    case AspectRatio => 1.5
    case Resolution => 1.5
    case BlurDetection => 1.8
    case Brightness => 1.5
    case ContentValidation => 1.7
    case Timestamp => 0.8
    case ScreenshotDetection => 0.5
    case GpsValidation => 1.2
  }

  /** The weighted sum of the check scores, for a weight table `weight`. */
  function TotalScore(cs: seq<Check>, weight: CheckName -> real): real
  {
    if cs == [] then 0.0
    else TotalScore(cs[..|cs| - 1], weight) + cs[|cs| - 1].score * weight(cs[|cs| - 1].name)
  }

  function TotalWeight(cs: seq<Check>, weight: CheckName -> real): real
  {
    if cs == [] then 0.0 else TotalWeight(cs[..|cs| - 1], weight) + weight(cs[|cs| - 1].name)
  }

  /** The weighted mean of the check scores, or 0.0 when the weights sum to 0 (no checks). */
  function Quality(cs: seq<Check>): real
  {
    var w := TotalWeight(cs, Weight);
    if w == 0.0 then 0.0 else TotalScore(cs, Weight) / w
  }

  /** `_calculate_quality`: accumulate weighted scores and weights, then divide. */
  method CalculateQuality(cs: seq<Check>) returns (q: real)
    ensures q == Quality(cs)
    ensures cs == [] ==> q == 0.0
  {
    var totalScore := 0.0;
    var totalWeight := 0.0;
    var i := 0;
    while i < |cs|
      invariant 0 <= i <= |cs|
      invariant totalScore == TotalScore(cs[..i], Weight)
      invariant totalWeight == TotalWeight(cs[..i], Weight)
    {
      assert cs[..i + 1][..i] == cs[..i];
      totalScore := totalScore + cs[i].score * Weight(cs[i].name);
      totalWeight := totalWeight + Weight(cs[i].name);
      i := i + 1;
    }
    assert cs[..i] == cs;
    if totalWeight == 0.0 {
      q := 0.0;
    } else {
      q := totalScore / totalWeight;
    }
  }

  /** With positive weights, a non-empty list has a positive total weight. */
  lemma {:induction false} TotalWeightPositive(cs: seq<Check>, weight: CheckName -> real)
    requires forall n :: weight(n) > 0.0
    ensures cs != [] ==> TotalWeight(cs, weight) > 0.0
  {
    if cs != [] {
      TotalWeightPositive(cs[..|cs| - 1], weight);
    }
  }

  /** With positive weights and every check score at least lo, the weighted sum is at least lo times the total weight. */
  lemma {:induction false} WeightedSumAtLeast(cs: seq<Check>, weight: CheckName -> real, lo: real)
    requires forall n :: weight(n) > 0.0
    requires forall i :: 0 <= i < |cs| ==> lo <= cs[i].score
    ensures lo * TotalWeight(cs, weight) <= TotalScore(cs, weight)
  {
    if cs != [] {
      var prefix := cs[..|cs| - 1];
      assert forall i :: 0 <= i < |prefix| ==> prefix[i] == cs[i];
      WeightedSumAtLeast(prefix, weight, lo);
      var last := cs[|cs| - 1];
      AddAtLeast(TotalScore(prefix, weight), TotalWeight(prefix, weight), last.score, weight(last.name), lo);
    }
  }

  /** With positive weights and every check score at most hi, the weighted sum is at most hi times the total weight. */
  lemma {:induction false} WeightedSumAtMost(cs: seq<Check>, weight: CheckName -> real, hi: real)
    requires forall n :: weight(n) > 0.0
    requires forall i :: 0 <= i < |cs| ==> cs[i].score <= hi
    ensures TotalScore(cs, weight) <= hi * TotalWeight(cs, weight)
  {
    if cs != [] {
      var prefix := cs[..|cs| - 1];
      assert forall i :: 0 <= i < |prefix| ==> prefix[i] == cs[i];
      WeightedSumAtMost(prefix, weight, hi);
      var last := cs[|cs| - 1];
      AddAtMost(TotalScore(prefix, weight), TotalWeight(prefix, weight), last.score, weight(last.name), hi);
    }
  }

  /** One more weighted term keeps the sum at or above lo times the weight. */
  lemma AddAtLeast(s0: real, w0: real, x: real, w: real, lo: real)
    requires lo * w0 <= s0 && lo <= x && w > 0.0
    ensures lo * (w0 + w) <= s0 + x * w
  {
    assert (x - lo) * w >= 0.0;
  }

  /** One more weighted term keeps the sum at or below hi times the weight. */
  lemma AddAtMost(s0: real, w0: real, x: real, w: real, hi: real)
    requires s0 <= hi * w0 && x <= hi && w > 0.0
    ensures s0 + x * w <= hi * (w0 + w)
  {
    assert (hi - x) * w >= 0.0;
  }

  /**
   * The quality score is a weighted mean: for a non-empty list it lies between the
   * lowest and the highest check score.
   */
  lemma QualityBetweenExtremes(cs: seq<Check>, lo: real, hi: real)
    requires cs != []
    requires forall i :: 0 <= i < |cs| ==> lo <= cs[i].score <= hi
    ensures lo <= Quality(cs) <= hi
  {
    TotalWeightPositive(cs, Weight);
    WeightedSumAtLeast(cs, Weight, lo);
    WeightedSumAtMost(cs, Weight, hi);
    DivideBetween(TotalScore(cs, Weight), TotalWeight(cs, Weight), lo, hi);
  }

  lemma DivideBetween(t: real, w: real, lo: real, hi: real)
    requires w > 0.0 && lo * w <= t <= hi * w
    ensures lo <= t / w <= hi
  {
    assert t / w * w == t;
  }

  predicate ScoresInRange(cs: seq<Check>)
  {
    forall i :: 0 <= i < |cs| ==> 0.0 <= cs[i].score <= 100.0
  }

  lemma ScoresInRangeAppend(a: seq<Check>, b: seq<Check>)
    requires ScoresInRange(a) && ScoresInRange(b)
    ensures ScoresInRange(a + b)
  {
    forall i | 0 <= i < |a + b|
      ensures 0.0 <= (a + b)[i].score <= 100.0
    {
      if i >= |a| {
        assert (a + b)[i] == b[i - |a|];
      }
    }
  }

  /** The quality score of checks scoring in [0, 100] lies in [0, 100] (for no checks it is 0). */
  lemma QualityWithinScoreRange(cs: seq<Check>)
    requires ScoresInRange(cs)
    ensures 0.0 <= Quality(cs) <= 100.0
  {
    if cs != [] {
      QualityBetweenExtremes(cs, 0.0, 100.0);
    }
  }

  // ---------------------------------------------------------------------------
  // validate_all
  // ---------------------------------------------------------------------------

  datatype ValidationResult = ValidationResult(
    isValid: bool,
    overallQuality: real,
    errors: seq<Message>,
    warnings: seq<Message>,
    checks: seq<Check>)

  /** The value `validate_all` returns for the given measurements, the quality rounded to two places. */
  function Validate(m: Measurements): (r: ValidationResult)
    ensures |r.checks| == 12 && InCheckOrder(r.checks)
    ensures r.isValid <==> r.errors == []
    ensures Quality(r.checks) - 0.005 < r.overallQuality <= Quality(r.checks) + 0.005
  {
    var cs := RunChecks(m);
    ValidationResult(ErrorsOf(cs) == [], Round2(Quality(cs)), ErrorsOf(cs), WarningsOf(cs), cs)
  }

  /**
   * `validate_all`: run all twelve checks (none is skipped after a failure), route
   * each result, compute the quality score, and accept exactly when there is no error.
   */
  method ValidateAll(m: Measurements) returns (r: ValidationResult)
    ensures r == Validate(m)
    ensures |r.checks| == 12
    ensures r.isValid <==> r.errors == []
    ensures Quality(r.checks) - 0.005 < r.overallQuality <= Quality(r.checks) + 0.005
  {
    var checks := RunAllChecks(m);
    var errors, warnings := RouteChecks(checks);
    var quality := CalculateQuality(checks);
    r := ValidationResult(|errors| == 0, Round2(quality), errors, warnings, checks);
  }

  /** Twelve single appends to the empty list give the four groups, concatenated. */
  lemma TwelveAppends<T>(a0: T, a1: T, a2: T, a3: T, a4: T, a5: T, a6: T, a7: T, a8: T, a9: T, a10: T, a11: T)
    ensures [] + [a0] + [a1] + [a2] + [a3] + [a4] + [a5] + [a6] + [a7] + [a8] + [a9] + [a10] + [a11] ==
      [a0, a1, a2, a3, a4] + [a5, a6, a7, a8] + [a9, a10] + [a11]
  {
  }

  /** The twelve `checks.append(...)` calls of `validate_all`, in their fixed order. */
  method RunAllChecks(m: Measurements) returns (checks: seq<Check>)
    ensures checks == RunChecks(m)
  {
    checks := [];
    checks := checks + [FileSizeCheck(m.fileSize)];
    checks := checks + [FileValidityCheck(m.file)];
    checks := checks + [ColorModeCheck(m.image)];
    checks := checks + [DimensionsCheck(m.image)];
    checks := checks + [AspectRatioCheck(m.image)];
    checks := checks + [ResolutionCheck(m.image)];
    checks := checks + [BlurCheck(m.laplacianVariance)];
    checks := checks + [BrightnessCheck(m.meanIntensity)];
    checks := checks + [ContentCheck(m.intensityStdDev)];
    checks := checks + [TimestampCheck(m.image)];
    checks := checks + [ScreenshotCheck(m.image)];
    checks := checks + [GpsCheck(m.latitude, m.longitude)];
    TwelveAppends(FileSizeCheck(m.fileSize), FileValidityCheck(m.file), ColorModeCheck(m.image),
      DimensionsCheck(m.image), AspectRatioCheck(m.image), ResolutionCheck(m.image),
      BlurCheck(m.laplacianVariance), BrightnessCheck(m.meanIntensity), ContentCheck(m.intensityStdDev),
      TimestampCheck(m.image), ScreenshotCheck(m.image), GpsCheck(m.latitude, m.longitude));
  }

  /** The routing loop of `validate_all`: each failed or warning check's message goes to errors or warnings. */
  method RouteChecks(checks: seq<Check>) returns (errors: seq<Message>, warnings: seq<Message>)
    ensures errors == ErrorsOf(checks)
    ensures warnings == WarningsOf(checks)
  {
    errors := [];
    warnings := [];
    var i := 0;
    while i < |checks|
      invariant 0 <= i <= |checks|
      invariant errors == ErrorsOf(checks[..i])
      invariant warnings == WarningsOf(checks[..i])
    {
      var check := checks[i];
      assert checks[..i + 1][..i] == checks[..i];
      if !check.passed {
        if IsCritical(check.name) {
          errors := errors + [check.message];
        } else {
          warnings := warnings + [check.message];
        }
      } else if MentionsWarning(check.message) {
        warnings := warnings + [check.message];
      }
      i := i + 1;
    }
    assert checks[..i] == checks;
  }

  // ---------------------------------------------------------------------------
  // Properties of Layer 0
  // ---------------------------------------------------------------------------

  /**
   * A report passes Layer 0 exactly when the file decodes, the image is at least
   * 300x300, the Laplacian variance reaches 100, the mean intensity is in [30, 230]
   * and both submitted coordinates lie in the region.
   */
  lemma ValidIff(m: Measurements)
    ensures Validate(m).isValid <==>
      m.file == Decodable &&
      m.image.Some? && m.image.value.width >= MIN_WIDTH && m.image.value.height >= MIN_HEIGHT &&
      m.laplacianVariance.Some? && m.laplacianVariance.value >= MIN_BLUR_SCORE &&
      m.meanIntensity.Some? && MIN_BRIGHTNESS <= m.meanIntensity.value <= MAX_BRIGHTNESS &&
      m.latitude.Some? && m.longitude.Some? && InRegion(m.latitude.value, m.longitude.value)
  {
    var cs := RunChecks(m);
    ErrorsEmptyIffCriticalPassed(cs);
    assert cs[1] == FileValidityCheck(m.file);
    assert cs[5] == ResolutionCheck(m.image);
    assert cs[6] == BlurCheck(m.laplacianVariance);
    assert cs[7] == BrightnessCheck(m.meanIntensity);
    assert cs[11] == GpsCheck(m.latitude, m.longitude);
  }

  /**
   * The file size, the colour mode, the EXIF data (so the photo's age and the
   * screenshot heuristic) and the content variation never decide acceptance: their
   * failures are warnings only.
   */
  lemma NonCriticalChecksNeverReject(m: Measurements, size: Option<int>, mode: string, exif: ExifProbe, stdDev: Option<real>)
    requires m.image.Some?
    ensures Validate(m.(fileSize := size, intensityStdDev := stdDev,
                        image := Some(m.image.value.(mode := mode, exif := exif)))).isValid
            == Validate(m).isValid
  {
    ValidIff(m);
    ValidIff(m.(fileSize := size, intensityStdDev := stdDev, image := Some(m.image.value.(mode := mode, exif := exif))));
  }

  /**
   * With measurements in the range the image libraries produce (an intensity mean in
   * [0, 255], a non-negative variance and deviation, a photo not dated in the future)
   * every check scores in [0, 100], and so does the quality score.
   */
  lemma SecurityScoresInRange(m: Measurements)
    ensures ScoresInRange(SecurityChecks(m))
  {
  }

  lemma QualityScoresInRange(m: Measurements)
    requires m.laplacianVariance.Some? ==> m.laplacianVariance.value >= 0.0
    requires m.meanIntensity.Some? ==> 0.0 <= m.meanIntensity.value <= 255.0
    requires m.intensityStdDev.Some? ==> m.intensityStdDev.value >= 0.0
    ensures ScoresInRange(QualityChecks(m))
  {
    var qual := QualityChecks(m);
    assert qual[1] == BlurCheck(m.laplacianVariance);
    assert qual[2] == BrightnessCheck(m.meanIntensity);
    assert qual[3] == ContentCheck(m.intensityStdDev);
  }

  lemma MetadataScoresInRange(m: Measurements)
    requires PhotoAge(m.image).Some? ==> PhotoAge(m.image).value >= 0
    ensures ScoresInRange(MetadataChecks(m))
  {
  }

  lemma GpsScoreInRange(m: Measurements)
    ensures ScoresInRange([GpsCheck(m.latitude, m.longitude)])
  {
  }

  lemma ScoresInRangeOfGroups(sec: seq<Check>, qual: seq<Check>, meta: seq<Check>, gps: seq<Check>)
    requires ScoresInRange(sec) && ScoresInRange(qual) && ScoresInRange(meta) && ScoresInRange(gps)
    ensures ScoresInRange(sec + qual + meta + gps)
  {
    ScoresInRangeAppend(sec, qual);
    ScoresInRangeAppend(sec + qual, meta);
    ScoresInRangeAppend(sec + qual + meta, gps);
  }

  lemma ChecksScoreInRange(m: Measurements)
    requires m.laplacianVariance.Some? ==> m.laplacianVariance.value >= 0.0
    requires m.meanIntensity.Some? ==> 0.0 <= m.meanIntensity.value <= 255.0
    requires m.intensityStdDev.Some? ==> m.intensityStdDev.value >= 0.0
    requires PhotoAge(m.image).Some? ==> PhotoAge(m.image).value >= 0
    ensures ScoresInRange(RunChecks(m))
  {
    SecurityScoresInRange(m);
    QualityScoresInRange(m);
    MetadataScoresInRange(m);
    GpsScoreInRange(m);
    ScoresInRangeOfGroups(SecurityChecks(m), QualityChecks(m), MetadataChecks(m), [GpsCheck(m.latitude, m.longitude)]);
  }

  lemma QualityWithin0And100(m: Measurements)
    requires m.laplacianVariance.Some? ==> m.laplacianVariance.value >= 0.0
    requires m.meanIntensity.Some? ==> 0.0 <= m.meanIntensity.value <= 255.0
    requires m.intensityStdDev.Some? ==> m.intensityStdDev.value >= 0.0
    requires PhotoAge(m.image).Some? ==> PhotoAge(m.image).value >= 0
    ensures 0.0 <= Validate(m).overallQuality <= 100.0
  {
    ChecksScoreInRange(m);
    QualityWithinScoreRange(RunChecks(m));
    Round2Between(Quality(RunChecks(m)), 0, 100);
  }
}
