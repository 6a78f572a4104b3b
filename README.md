# STREETLIGHT-PK report-trust pipeline, modelled in Dafny

STREETLIGHT-PK lets citizens report civic issues with a photo (potholes, garbage) and
decides automatically whether to accept a report. This project models the decision
logic of the backend and proves properties of it:

- **Layer 0** (`InputValidator`): twelve image-quality and metadata checks over measured
  values, the routing of failures into errors and warnings, and the weighted quality score.
- **Layer 1** (`AiEngine`): everything after the classifier's softmax — the validity rule,
  the severity estimate, the clamped final score, the user message, the batch loop.
- **GPS verification** (`GpsVerifier`, `ExifExtractor`, `Geocoding`, `LandmarkFinder`):
  reading the photo's GPS position from EXIF, reverse geocoding with Nominatim's rate
  limit, landmark search results from Overpass, and the distance-based score adjustment.
- **The orchestrator** (`LayerOrchestrator`): Layer 0, then Layer 1, then accept or reject.
- **Report interactions** (`MobileAuth`): creating a report, the feed with view counting,
  and the support and verify toggles, as a state machine over reports, an interaction set
  and user profiles.

Every pixel, EXIF, ML and HTTP measurement is an input value. Great-circle distance is a
function-typed parameter (`Geo.Distance`). Nominatim and Overpass replies are functions of
the requested point. `time.time()` and `time.sleep` are a `Clock` object whose `Sleep`
advances it by exactly the requested amount. Numbers are Dafny `real`s (exact) and `int`s.
Python's `int()` truncation toward zero is written out (`Geo.TruncateTowardZero`).

Rules of the code that are easy to misread, and which the model keeps as written:

- the blur minimum is a Laplacian variance of 100.0;
- "verified" needs at least two nearby landmarks;
- acceptance depends only on `is_valid_issue`: the final score is reported but never compared with a cutoff;
- a distance of exactly 5.0 km falls through to status `unknown` with no adjustment;
- `IssueCategory` has only `POTHOLE` and `TRASH`;
- file-size and timestamp failures are warnings only, never errors.

One module per source file, plus `Wrappers` (Option), `Geo` (coordinates, the range
check, truncation) and `LandmarkConfig` (the constants of `config.py`). Stateful parts are
classes:

- `Geocoding.Geocoder` with `lastRequestTime`;
- `GpsVerifier.GpsVerifier`, `AiEngine.AiEngineInstance` and `LayerOrchestrator.Orchestrator`, which own them;
- `MobileAuth.ReportDatabase` with `reports`, `interactions` and `profiles` fields.

Each stateful method is proved against a specification function:

- `Validate`, `VerifySpec`, `ExtractGpsSpec`, `ReverseGeocodeSpec` and `ParseAll`;
- `SupportStep`, `VerifyStep` and `CreateStep`, whose properties are lemmas.

## Model

| member | source | states |
|---|---|---|
| Wrappers.Option.GetOr | backend/ai_layers/layer1_ai_engine/landmark_detector/geocoder.py:83 | `dict.get(k, default)` on an optional value: the value when present, the default otherwise |
| Geo.IsValidCoordinate | backend/ai_layers/layer1_ai_engine/landmark_detector/geocoder.py:142-166 | a coordinate is valid iff its latitude lies in the inclusive [-90, 90] and its longitude in the inclusive [-180, 180]; the same check as verifier.py:272-295 |
| Geo.TruncateTowardZero | backend/ai_layers/layer1_ai_engine/landmark_detector/verifier.py:220 | Python `int()` on a real: the integer next to `x` on the side of zero (floor for non-negative, ceiling for negative) |
| InputValidator.FileSizeCheck | backend/ai_layers/layer0_validation/input_validator.py:546-606 | passes iff the size is known and in [10 KB, 10 MB] inclusive; a passing size scores 50..100, a failing one 0; too small / too large are distinguished |
| InputValidator.FileValidityCheck | backend/ai_layers/layer0_validation/input_validator.py:167-223 | passes iff the file exists, has an allowed extension and decodes; score 100 or 0 accordingly |
| InputValidator.ColorModeCheck | backend/ai_layers/layer0_validation/input_validator.py:656-696 | passes iff the opened image's mode is one of RGB, RGBA, L, P |
| InputValidator.DimensionsCheck | backend/ai_layers/layer0_validation/input_validator.py:608-654 | passes iff neither side exceeds 10000 pixels |
| InputValidator.Ratio | backend/ai_layers/layer0_validation/input_validator.py:715 | width/height is non-negative and multiplies back to the width for a non-zero height |
| InputValidator.MinDistance | backend/ai_layers/layer0_validation/input_validator.py:729-731 | the result is the distance to one of the ideal ratios and no larger than the distance to any of them |
| InputValidator.AspectRatioCheck | backend/ai_layers/layer0_validation/input_validator.py:698-748 | passes iff the ratio lies in [0.5, 2.0]; a passing ratio scores 70..100, a failing one 0 |
| InputValidator.Round2 | backend/ai_layers/layer0_validation/input_validator.py:268 | `round(x, 2)` lies within half a hundredth of x |
| InputValidator.Round2Monotone | backend/ai_layers/layer0_validation/input_validator.py:268 | rounding keeps order |
| InputValidator.Round2Whole | backend/ai_layers/layer0_validation/input_validator.py:268 | a whole number rounds to itself |
| InputValidator.Round2Between | backend/ai_layers/layer0_validation/input_validator.py:268 | a value between two whole bounds rounds to a value between them |
| InputValidator.ResolutionCheck | backend/ai_layers/layer0_validation/input_validator.py:346-390 | passes iff both sides are at least 300; the score is min(100, smaller side ratio x 100) rounded to two places, in [0, 100], and is exactly 100 iff the check passes |
| InputValidator.ResolutionBelowFull | backend/ai_layers/layer0_validation/input_validator.py:363-379 | a side under 300 pixels keeps the rounded score below 100 |
| InputValidator.BlurCheck | backend/ai_layers/layer0_validation/input_validator.py:225-279 | passes iff the Laplacian variance is at least 100.0; the score is the variance capped at 100 and rounded to two places, so it is 100 iff the variance is at least 99.995, and always 100 when the check passes |
| InputValidator.BlurRoundingGap | backend/ai_layers/layer0_validation/input_validator.py:256-268 | a variance of 99.996 fails the check yet reports score 100 |
| InputValidator.BrightnessCheck | backend/ai_layers/layer0_validation/input_validator.py:281-344 | passes iff the mean is in [30, 230] inclusive; "too dark" iff below 30, "too bright" iff above 230; the score is the mean as a percentage of 255, rounded to two places |
| InputValidator.ContentCheck | backend/ai_layers/layer0_validation/input_validator.py:809-867 | passes iff the intensity standard deviation is at least 5; a failing image scores 0 |
| InputValidator.TimestampCheck | backend/ai_layers/layer0_validation/input_validator.py:392-477 | fails iff the photo is known to be more than 30 days old; an unreadable or missing time passes with score 50 and a warning |
| InputValidator.MatchesScreenshotRatio | backend/ai_layers/layer0_validation/input_validator.py:771-779 | the search loop finds a match iff the ratio is within 0.05 of some screenshot ratio |
| InputValidator.ScreenshotCheck | backend/ai_layers/layer0_validation/input_validator.py:750-807 | never fails; suspected (score 60) iff the ratio is screenshot-like and the EXIF is missing or has fewer than 5 entries |
| InputValidator.GpsCheck | backend/ai_layers/layer0_validation/input_validator.py:479-544 | passes iff both coordinates are given and lie in [23, 37] x [60, 78] inclusive; a missing coordinate fails with its own message |
| InputValidator.SecurityChecks | backend/ai_layers/layer0_validation/input_validator.py:113-117 | the five security checks in their order |
| InputValidator.QualityChecks | backend/ai_layers/layer0_validation/input_validator.py:120-123 | the four quality checks in their order |
| InputValidator.MetadataChecks | backend/ai_layers/layer0_validation/input_validator.py:126-127 | the two metadata checks in their order |
| InputValidator.RunChecks | backend/ai_layers/layer0_validation/input_validator.py:113-130 | always exactly twelve checks, named in the fixed order, whatever fails |
| InputValidator.ErrorsOf | backend/ai_layers/layer0_validation/input_validator.py:133-141 | the error list is no longer than the check list |
| InputValidator.WarningsOf | backend/ai_layers/layer0_validation/input_validator.py:133-141 | the warning list is no longer than the check list |
| InputValidator.ErrorsEmptyIff | backend/ai_layers/layer0_validation/input_validator.py:133-141 | there are no errors iff no check is a failed critical check |
| InputValidator.ErrorsEmptyIffCriticalPassed | backend/ai_layers/layer0_validation/input_validator.py:135-147 | for the twelve checks, no errors iff File Validity, Resolution, Blur, Brightness and GPS all passed |
| InputValidator.RoutingIsAPartition | backend/ai_layers/layer0_validation/input_validator.py:133-141 | no message goes to both lists, and every failed check goes to one of them |
| InputValidator.Weight | backend/ai_layers/layer0_validation/input_validator.py:881-899 | every check's weight is positive |
| InputValidator.CalculateQuality | backend/ai_layers/layer0_validation/input_validator.py:869-912 | the accumulation loop returns the weighted mean of the scores, 0 for no checks |
| InputValidator.TotalWeightPositive | backend/ai_layers/layer0_validation/input_validator.py:904-910 | with positive weights a non-empty list has a positive total weight, so the zero case only arises for no checks |
| InputValidator.WeightedSumAtLeast | backend/ai_layers/layer0_validation/input_validator.py:904-907 | with positive weights and every score at least lo, the weighted sum is at least lo times the total weight |
| InputValidator.WeightedSumAtMost | backend/ai_layers/layer0_validation/input_validator.py:904-907 | with positive weights and every score at most hi, the weighted sum is at most hi times the total weight |
| InputValidator.QualityBetweenExtremes | backend/ai_layers/layer0_validation/input_validator.py:901-912 | the quality of a non-empty list lies between its smallest and largest possible score |
| InputValidator.QualityWithinScoreRange | backend/ai_layers/layer0_validation/input_validator.py:901-912 | scores in [0, 100] give a quality in [0, 100], including for no checks |
| InputValidator.Validate | backend/ai_layers/layer0_validation/input_validator.py:81-165 | valid iff there are no errors; always twelve checks; the reported quality is within half a hundredth of the weighted mean |
| InputValidator.ValidateAll | backend/ai_layers/layer0_validation/input_validator.py:81-165 | returns `Validate`: the twelve checks, their errors and warnings, valid iff there are no errors, and the quality rounded to two places |
| InputValidator.RunAllChecks | backend/ai_layers/layer0_validation/input_validator.py:113-130 | the twelve appends build the fixed-order check list |
| InputValidator.RouteChecks | backend/ai_layers/layer0_validation/input_validator.py:133-141 | the routing loop yields exactly the error and warning messages, in check order |
| InputValidator.ValidIff | backend/ai_layers/layer0_validation/input_validator.py:135-147 | a report passes Layer 0 iff it decodes, is at least 300x300, has blur variance at least 100, mean intensity in [30, 230] and both coordinates in the region |
| InputValidator.NonCriticalChecksNeverReject | backend/ai_layers/layer0_validation/input_validator.py:135 | the file size, colour mode, EXIF data and content deviation never change the verdict |
| InputValidator.ChecksScoreInRange | backend/ai_layers/layer0_validation/input_validator.py:113-130 | with measurements in their natural ranges every check scores in [0, 100] |
| InputValidator.QualityWithin0And100 | backend/ai_layers/layer0_validation/input_validator.py:144 | with measurements in their natural ranges the overall quality lies in [0, 100] |
| AiEngine.IsValidIssue | backend/ai_layers/layer1_ai_engine/ai_engine.py:113-117 | a prediction is a civic issue iff its class is not "other" and its confidence reaches the threshold (inclusive) |
| AiEngine.Severity.Level | backend/ai_layers/layer1_ai_engine/ai_engine.py:229-241 | severity levels are ordered 0..2 |
| AiEngine.FromLevel | backend/ai_layers/layer1_ai_engine/ai_engine.py:229-241 | the inverse of `Level` on 0..2 |
| AiEngine.FromLevelInvertsLevel | backend/ai_layers/layer1_ai_engine/ai_engine.py:229-241 | `FromLevel` undoes `Level` for every severity |
| AiEngine.SeverityBySize | backend/ai_layers/layer1_ai_engine/ai_engine.py:249-318 | no contour is small, a failed measurement medium; a pothole with a side over 150 or garbage whose box covers over 40% is large |
| AiEngine.PotholeSizeRule | backend/ai_layers/layer1_ai_engine/ai_engine.py:279-306 | a pothole is large iff average coverage > 0.25 or a side > 150, else medium iff coverage > 0.12 or a side > 80 |
| AiEngine.GarbageSizeRule | backend/ai_layers/layer1_ai_engine/ai_engine.py:307-314 | garbage is large iff average coverage > 0.30 or box coverage > 0.40, else medium iff average > 0.15 or box > 0.20, else small |
| AiEngine.SeverityBySizeMonotone | backend/ai_layers/layer1_ai_engine/ai_engine.py:249-318 | a larger contour (area and box) never gives a lower severity |
| AiEngine.SeverityByFeatures | backend/ai_layers/layer1_ai_engine/ai_engine.py:320-392 | pothole large iff score > 15, small iff ≤ 7; garbage large iff > 20, small iff ≤ 10; other types and errors give medium |
| AiEngine.EstimateSeverity | backend/ai_layers/layer1_ai_engine/ai_engine.py:208-247 | the combined severity is one of the two estimates and at least as severe as each |
| AiEngine.FinalScore | backend/ai_layers/layer1_ai_engine/ai_engine.py:137-139 | always in [0, 100]; equal to score plus adjustment when that is in range, clamped otherwise |
| AiEngine.FinalScoreMonotone | backend/ai_layers/layer1_ai_engine/ai_engine.py:137-139 | a larger GPS adjustment never lowers the final score |
| AiEngine.QualityTier | backend/ai_layers/layer1_ai_engine/ai_engine.py:458-463 | Clear iff ≥ 90%, Good iff in [70, 90), Acceptable iff below 70 |
| AiEngine.GenerateMessage | backend/ai_layers/layer1_ai_engine/ai_engine.py:419-476 | the message-building method returns the message `MessageFor` selects |
| AiEngine.MessageFor | backend/ai_layers/layer1_ai_engine/ai_engine.py:419-476 | the spoofing warning iff spoofed; a detection iff not spoofed and valid, carrying the class and the confidence in percent |
| AiEngine.MessagePriority | backend/ai_layers/layer1_ai_engine/ai_engine.py:441-474 | spoofing warning iff spoofed; then "other" is not a civic issue, any other invalid class is low confidence; a detection carries at most one GPS note, present iff verified, good match or minor mismatch |
| AiEngine.PredictionFrom | backend/ai_layers/layer1_ai_engine/ai_engine.py:114-177 | valid iff the class is not "other" and confidence ≥ threshold; severity present iff valid; final score in [0, 100] |
| AiEngine.BuildPrediction | backend/ai_layers/layer1_ai_engine/ai_engine.py:137-177 | once validity, severity and the GPS result are known, the clamped score, the message and the record are exactly `PredictionFrom` |
| AiEngine.AiEngineInstance.constructor | backend/ai_layers/layer1_ai_engine/ai_engine.py:39-47 | keeps the given confidence threshold and makes a fresh GPS verifier |
| AiEngine.AiEngineInstance.Predict | backend/ai_layers/layer1_ai_engine/ai_engine.py:67-181 | a missing file or failed inference raises without touching the clock; otherwise the prediction record over a verification result that is `VerifySpec` of the submitted coordinates, with min(5, n) of the n landmarks parsed from the Overpass reply, sorted by distance, none left out nearer than one kept |
| AiEngine.AiEngineInstance.PredictBatch | backend/ai_layers/layer1_ai_engine/ai_engine.py:183-206 | one entry per image in order; an entry is an error entry (with the image path) iff that prediction raises, otherwise the prediction and verification result `Predict` makes without submitted coordinates; the batch goes on |
| ExifExtractor.ConvertCoordinate | backend/ai_layers/layer1_ai_engine/landmark_detector/exif_extractor.py:111-142 | None unless coordinate and reference are present and truthy; three rationals give d + m/60 + s/3600, negated for S or W; fewer than three entries or a bare number give None; text converts iff its first three characters are digits |
| ExifExtractor.HemisphereSign | backend/ai_layers/layer1_ai_engine/landmark_detector/exif_extractor.py:135-136 | S gives exactly the negation of N, W the same as S, E the same as N |
| ExifExtractor.DmsWithinDegree | backend/ai_layers/layer1_ai_engine/landmark_detector/exif_extractor.py:127-132 | with minutes and seconds below 60 the decimal value stays within the degree (plus one minute) |
| ExifExtractor.ParseFloat | backend/ai_layers/layer1_ai_engine/landmark_detector/exif_extractor.py:161 | `float(text)`: an optional sign, then digits with an optional point; a minus negates, a plus or no sign keeps the value; plain digits give their value |
| ExifExtractor.ParseUnsigned | backend/ai_layers/layer1_ai_engine/landmark_detector/exif_extractor.py:161 | unsigned `float(text)`: a number iff the text before the first point and the text after it are digits and the text is neither empty nor a lone point; plain digits give their value |
| ExifExtractor.PointedDecimal | backend/ai_layers/layer1_ai_engine/landmark_detector/exif_extractor.py:161 | for all digit strings w and f, "w.f" reads as w + f / 10^(length of f), a value in [w, w + 1) |
| ExifExtractor.DigitsBelowPow10 | backend/ai_layers/layer1_ai_engine/landmark_detector/exif_extractor.py:161 | n decimal digits are worth at most 10^n - 1, so a fraction part stays below one |
| ExifExtractor.ParseFloatReadsDecimals | backend/ai_layers/layer1_ai_engine/landmark_detector/exif_extractor.py:161 | "12.5" reads as 12.5 and "-3" as -3 |
| ExifExtractor.ParseFloatRejectsNonNumbers | backend/ai_layers/layer1_ai_engine/landmark_detector/exif_extractor.py:161-162 | ".", "-" and "1a" are not numbers |
| ExifExtractor.ConvertAltitude | backend/ai_layers/layer1_ai_engine/landmark_detector/exif_extractor.py:145-163 | falsy gives none; a number is itself; a pair a/b gives a/b, and none when b = 0; a one-element tuple raises; text gives its parsed number, none when it is not one |
| ExifExtractor.MergeGpsKeys | backend/ai_layers/layer1_ai_engine/landmark_detector/exif_extractor.py:49-58 | the merged GPS dictionary has exactly the old keys and the keys of the new entries |
| ExifExtractor.MergeGpsLastWins | backend/ai_layers/layer1_ai_engine/landmark_detector/exif_extractor.py:49-58 | the value kept for a key is that of its last entry |
| ExifExtractor.MergeGpsUntouched | backend/ai_layers/layer1_ai_engine/landmark_detector/exif_extractor.py:49-58 | a key no entry mentions keeps its value |
| ExifExtractor.NoGpsInfoNoGps | backend/ai_layers/layer1_ai_engine/landmark_detector/exif_extractor.py:49-62 | without a GPSInfo tag the collected GPS dictionary stays empty |
| ExifExtractor.CollectTags | backend/ai_layers/layer1_ai_engine/landmark_detector/exif_extractor.py:49-62 | the tags collect iff every GPSInfo entry is a dictionary |
| ExifExtractor.BuildResult | backend/ai_layers/layer1_ai_engine/landmark_detector/exif_extractor.py:64-101 | a result needs GPS tags; its timestamp exists iff both date and time stamps do; make, model and time come from the plain tags |
| ExifExtractor.ExtractGpsSpec | backend/ai_layers/layer1_ai_engine/landmark_detector/exif_extractor.py:37-43 | unreadable EXIF, no EXIF or no entries give None |
| ExifExtractor.ExtractGps | backend/ai_layers/layer1_ai_engine/landmark_detector/exif_extractor.py:19-108 | the nested collection loops and the result building return what `ExtractGpsSpec` defines |
| ExifExtractor.CollectNoneStaysNone | backend/ai_layers/layer1_ai_engine/landmark_detector/exif_extractor.py:106-108 | once reading a tag has raised, the whole extraction yields None |
| ExifExtractor.HasGpsData | backend/ai_layers/layer1_ai_engine/landmark_detector/exif_extractor.py:166-177 | true iff `extract_gps` yields a position |
| ExifExtractor.ExtractSomeIff | backend/ai_layers/layer1_ai_engine/landmark_detector/exif_extractor.py:41-104 | a position exists iff the tags collect, GPS tags exist, both coordinates convert and the altitude does not raise; it is the converted pair, an altitude is kept only when non-zero, the GPS timestamp iff both date and time stamps exist, and make, model and time come from the plain tags |
| ExifExtractor.NoGpsInfoNoPosition | backend/ai_layers/layer1_ai_engine/landmark_detector/exif_extractor.py:60-62 | a photo without GPSInfo never yields a position |
| Geocoding.Clock.constructor | backend/ai_layers/layer1_ai_engine/landmark_detector/geocoder.py:173 | the clock starts at the given time |
| Geocoding.Clock.Sleep | backend/ai_layers/layer1_ai_engine/landmark_detector/geocoder.py:179 | sleeping advances the clock by exactly the requested time |
| Geocoding.WakeTime | backend/ai_layers/layer1_ai_engine/landmark_detector/geocoder.py:168-181 | the request time is never before now nor less than 1 s after the last request, and is one of the two |
| Geocoding.SendTimes | backend/ai_layers/layer1_ai_engine/landmark_detector/geocoder.py:168-181 | one send time per call |
| Geocoding.SendTimesSpaced | backend/ai_layers/layer1_ai_engine/landmark_detector/geocoder.py:173-181 | successive requests are at least 1 s apart, the first at least 1 s after the previous last request |
| Geocoding.Get | backend/ai_layers/layer1_ai_engine/landmark_detector/geocoder.py:83-95 | `dict.get`: the stored value for a present key, the default otherwise |
| Geocoding.AddressOf | backend/ai_layers/layer1_ai_engine/landmark_detector/geocoder.py:83-95 | each field's value: display name or "Unknown location"; road, highway, ''; suburb, neighbourhood, ''; city, town, village, ''; state, province, ''; country and postcode or ''; echoed or requested lat/lon |
| Geocoding.ReverseGeocodeSpec | backend/ai_layers/layer1_ai_engine/landmark_detector/geocoder.py:28-108 | an address iff the point is valid, the request succeeded, and the reply is non-empty and has no 'error' |
| Geocoding.Join | backend/ai_layers/layer1_ai_engine/landmark_detector/geocoder.py:140 | no parts give "", one part is itself, more parts are the first, ", " and the join of the rest; any non-empty part makes it non-empty |
| Geocoding.JoinAppend | backend/ai_layers/layer1_ai_engine/landmark_detector/geocoder.py:138-140 | appending a part to the list appends ", " and that part to the joined text |
| Geocoding.ShortParts | backend/ai_layers/layer1_ai_engine/landmark_detector/geocoder.py:127-138 | at most three non-empty parts, road first iff present, none iff road, suburb, city and state are all empty |
| Geocoding.ShortAddress | backend/ai_layers/layer1_ai_engine/landmark_detector/geocoder.py:127-140 | the parts joined with ", " when there are any (road, suburb, state when all three exist), otherwise the display name |
| Geocoding.SuburbBeforeCity | backend/ai_layers/layer1_ai_engine/landmark_detector/geocoder.py:132-135 | a suburb is used in place of the city; the city appears only without a suburb |
| Geocoding.Geocoder.constructor | backend/ai_layers/layer1_ai_engine/landmark_detector/geocoder.py:23-26 | the last request time starts at 0 |
| Geocoding.Geocoder.RespectRateLimit | backend/ai_layers/layer1_ai_engine/landmark_detector/geocoder.py:168-181 | sleeps until the wake time and records it as the last request time |
| Geocoding.Geocoder.ReverseGeocode | backend/ai_layers/layer1_ai_engine/landmark_detector/geocoder.py:28-108 | returns `ReverseGeocodeSpec`; an invalid point returns before any wait or state change, a valid one waits for the rate limit |
| Geocoding.Geocoder.GetShortAddress | backend/ai_layers/layer1_ai_engine/landmark_detector/geocoder.py:110-140 | None iff reverse geocoding gives None, otherwise the short address; the same clock behaviour |
| GpsVerifier.ScoreAdjustment | backend/ai_layers/layer1_ai_engine/landmark_detector/verifier.py:176-229 | spoofed iff the status is spoofing detected |
| GpsVerifier.TruncateMonotone | backend/ai_layers/layer1_ai_engine/landmark_detector/verifier.py:220 | truncation toward zero is monotone |
| GpsVerifier.ScoreAdjustmentBands | backend/ai_layers/layer1_ai_engine/landmark_detector/verifier.py:192-229 | spoofing iff d > 5; verified iff d < 0.5 and at least 2 landmarks; good match iff d < 0.5 with fewer; minor mismatch iff 0.5 ≤ d < 5; unknown (0, not spoofed) iff d = 5 |
| GpsVerifier.MinorMismatchPenaltyRange | backend/ai_layers/layer1_ai_engine/landmark_detector/verifier.py:219-226 | the minor-mismatch penalty lies in [-9, -1] |
| GpsVerifier.ScoreAdjustmentBounds | backend/ai_layers/layer1_ai_engine/landmark_detector/verifier.py:176-229 | the adjustment lies in [-50, 10], and is negative iff d > 5 or 0.5 ≤ d < 5 |
| GpsVerifier.MinorMismatchMonotone | backend/ai_layers/layer1_ai_engine/landmark_detector/verifier.py:219-226 | within the minor band a larger distance never lessens the penalty |
| GpsVerifier.GapAtSpoofingThreshold | backend/ai_layers/layer1_ai_engine/landmark_detector/verifier.py:192-229 | 4.9 km costs 9 points, exactly 5.0 km nothing, 5.1 km 50 points |
| GpsVerifier.VerifySpec | backend/ai_layers/layer1_ai_engine/landmark_detector/verifier.py:43-174 | photo GPS iff the EXIF yields a position, which is then the photo point; a measured distance comes with the landmarks given and a submitted point |
| GpsVerifier.VerifiedIffTwoLandmarksFound | backend/ai_layers/layer1_ai_engine/landmark_detector/verifier.py:148-216 | within 0.5 km the result is verified (+10) iff the search around the photo parsed at least two landmarks, and a good match (0) otherwise |
| GpsVerifier.NoPhotoGpsSkipsVerification | backend/ai_layers/layer1_ai_engine/landmark_detector/verifier.py:91-95 | without photo GPS: status no GPS, adjustment 0, no distance and no landmarks |
| GpsVerifier.InvalidSubmittedStopsEarly | backend/ai_layers/layer1_ai_engine/landmark_detector/verifier.py:106-111 | out-of-range submitted coordinates give status invalid with adjustment 0, before any distance |
| GpsVerifier.MissingSubmittedUsesPhoto | backend/ai_layers/layer1_ai_engine/landmark_detector/verifier.py:115-120 | missing submitted coordinates are replaced by the photo's, and the distance is measured from the photo to itself |
| GpsVerifier.SpoofedIffFar | backend/ai_layers/layer1_ai_engine/landmark_detector/verifier.py:124-170 | spoofed iff status spoofing iff a distance over 5 km was measured, and then the adjustment is -50 |
| GpsVerifier.VerifyAdjustmentBounds | backend/ai_layers/layer1_ai_engine/landmark_detector/verifier.py:162-170 | the verifier's adjustment always lies in [-50, 10] |
| GpsVerifier.GpsVerifier.constructor | backend/ai_layers/layer1_ai_engine/landmark_detector/verifier.py:38-41 | a fresh geocoder with no request made |
| GpsVerifier.GpsVerifier.GeocodeBoth | backend/ai_layers/layer1_ai_engine/landmark_detector/verifier.py:133-149 | the photo's short address if non-empty; the submitted point's only beyond 100 m, else the photo's |
| GpsVerifier.GpsVerifier.VerifyLocation | backend/ai_layers/layer1_ai_engine/landmark_detector/verifier.py:43-174 | returns `VerifySpec` over the landmarks found; they are min(5, n) of the n parsed landmarks, sorted by distance, and none left out is nearer than one kept; an early exit makes no geocoder call |
| LandmarkFinder.FirstPresent | backend/ai_layers/layer1_ai_engine/landmark_detector/landmark_finder.py:199-202 | the first category present in the tags, or None iff none is present |
| LandmarkFinder.LandmarkType | backend/ai_layers/layer1_ai_engine/landmark_detector/landmark_finder.py:188-204 | the first present category in the order amenity, building, shop, highway, leisure, natural, historic, with its value; else ('unknown', 'other') |
| LandmarkFinder.ParseElement | backend/ai_layers/layer1_ai_engine/landmark_detector/landmark_finder.py:140-186 | an element yields a landmark iff it has a non-empty name and a node position or a way center with both coordinates; it keeps the name, type and distance |
| LandmarkFinder.ParseAll | backend/ai_layers/layer1_ai_engine/landmark_detector/landmark_finder.py:140-186 | the parsed list is no longer than the input and every name is non-empty (completeness and order are the lemmas below) |
| LandmarkFinder.Origin | backend/ai_layers/layer1_ai_engine/landmark_detector/landmark_finder.py:140-186 | every parsed landmark comes from some input element |
| LandmarkFinder.ParseAllKeepsOrder | backend/ai_layers/layer1_ai_engine/landmark_detector/landmark_finder.py:140-186 | parsed landmarks keep the order of their input elements |
| LandmarkFinder.ParseAllComplete | backend/ai_layers/layer1_ai_engine/landmark_detector/landmark_finder.py:140-186 | every element that yields a landmark is the origin of one parsed entry |
| LandmarkFinder.ParseOverpassResults | backend/ai_layers/layer1_ai_engine/landmark_detector/landmark_finder.py:123-186 | the parsing loop returns `ParseAll` |
| LandmarkFinder.Swap | backend/ai_layers/layer1_ai_engine/landmark_detector/landmark_finder.py:72 | exchanges two array cells, a permutation |
| LandmarkFinder.SortByDistance | backend/ai_layers/layer1_ai_engine/landmark_detector/landmark_finder.py:72 | the in-place sort leaves the array sorted by distance and a permutation of its input |
| LandmarkFinder.FindNearbyLandmarks | backend/ai_layers/layer1_ai_engine/landmark_detector/landmark_finder.py:28-88 | a failed request gives []; otherwise the min(5, n) nearest parsed landmarks, sorted, none nearer left out |
| LandmarkFinder.NearestAreKept | backend/ai_layers/layer1_ai_engine/landmark_detector/landmark_finder.py:72-75 | a prefix of a sorted list is a sub-multiset whose entries are no farther than any left out |
| LandmarkFinder.HasLandmarksNearby | backend/ai_layers/layer1_ai_engine/landmark_detector/landmark_finder.py:246-264 | true iff the number of landmarks found reaches the minimum |
| LayerOrchestrator.AsErrors | backend/utils/layer_orchestrator.py:106-120 | each Layer 0 error message becomes one error entry, in order |
| LayerOrchestrator.Layer0Rejection | backend/utils/layer_orchestrator.py:106-120 | not passed, no Layer 1 result, score 0, REJECTED, one error per Layer 0 error, warnings passed through |
| LayerOrchestrator.Layer1Decision | backend/utils/layer_orchestrator.py:142-177 | passed iff the issue is valid iff there are no errors; ACCEPTED iff passed; keeps the prediction, its final score and Layer 0's warnings |
| LayerOrchestrator.Decide | backend/utils/layer_orchestrator.py:53-177 | a failed Layer 0 rejects without Layer 1; otherwise a Layer 1 error propagates, or the verdict is the issue's validity |
| LayerOrchestrator.Layer0FailureShortCircuits | backend/utils/layer_orchestrator.py:106-120 | a failed Layer 0 rejects with its own errors, no Layer 1 result and score 0, whatever Layer 1 would say |
| LayerOrchestrator.InvalidIssueRejects | backend/utils/layer_orchestrator.py:142-158 | a non-issue is rejected with exactly one error and keeps the AI's final score |
| LayerOrchestrator.PassedIff | backend/utils/layer_orchestrator.py:106-177 | passed iff both layers are valid; rejected iff not passed; an accepted report has no errors; Layer 0's warnings pass through |
| LayerOrchestrator.ScoreNeverDecides | backend/utils/layer_orchestrator.py:142-177 | two predictions with the same validity get the same verdict, whatever their scores and GPS results |
| LayerOrchestrator.AcceptanceRule | backend/utils/layer_orchestrator.py:47-177 | end to end: accepted iff Layer 0's five critical conditions hold and the class is not "other" with confidence at least 0.5 |
| LayerOrchestrator.PassedLayer0SubmitsValidGps | backend/ai_layers/layer1_ai_engine/landmark_detector/verifier.py:106-111 | a report that passed Layer 0 has valid coordinates, so the verifier never answers invalid_submitted_gps and, given photo GPS, measures from the submitted point |
| LayerOrchestrator.Orchestrator.constructor | backend/utils/layer_orchestrator.py:26-47 | the engine is built with threshold 0.5 |
| LayerOrchestrator.Orchestrator.ProcessReport | backend/utils/layer_orchestrator.py:53-177 | a failed Layer 0 returns its rejection without running Layer 1 (no clock or geocoder change); otherwise Layer 1's error propagates, or the decision is over the prediction, whose GPS result is `VerifySpec` of the report's own latitude and longitude with min(5, n) of the parsed landmarks, sorted by distance, none left out nearer than one kept |
| LayerOrchestrator.Orchestrator.RunLayer1 | backend/utils/layer_orchestrator.py:129-177 | predicts with the submitted coordinates and decides over the prediction, whose GPS result is `VerifySpec` of those coordinates with the nearest min(5, n) parsed landmarks, sorted; or re-raises |
| MobileAuth.ParseCategory | backend/routers/flutter/mobile_auth.py:78-84 | `IssueCategory(s)` succeeds iff s is POTHOLE or TRASH, giving that member |
| MobileAuth.ParseCategoryInvertsName | backend/model/report.py:19-21 | parsing a category's value gives the category back |
| MobileAuth.UpperChar | backend/routers/flutter/mobile_auth.py:79 | lower-case ASCII goes up by 32, other characters (except long s) are unchanged, and the result is never lower-case ASCII |
| MobileAuth.Upper | backend/routers/flutter/mobile_auth.py:79 | upper-casing maps each character and keeps the length |
| MobileAuth.UpperIdempotent | backend/routers/flutter/mobile_auth.py:79 | upper-casing twice equals upper-casing once |
| MobileAuth.CategoryIgnoresCase | backend/routers/flutter/mobile_auth.py:78-84 | any mix of cases of a category name is accepted as that category |
| MobileAuth.LeadingSpaces | backend/routers/flutter/mobile_auth.py:86-97 | the count of leading white space, followed by a non-space or the end |
| MobileAuth.StripTrailing | backend/routers/flutter/mobile_auth.py:86-97 | a prefix followed only by white space and not ending in it |
| MobileAuth.Strip | backend/routers/flutter/mobile_auth.py:86-97 | the text between the leading and trailing white space, neither starting nor ending with white space |
| MobileAuth.EmptyIsConsistent | backend/model/report.py:47-51 | an empty database satisfies the counter invariant |
| MobileAuth.IndexOf | backend/routers/flutter/mobile_auth.py:158 | the first row from a position with that id, None iff there is none |
| MobileAuth.Find | backend/routers/flutter/mobile_auth.py:158-160 | `filter(id).first()`: a row with that id, None iff there is none |
| MobileAuth.FindRowNumber | backend/routers/flutter/mobile_auth.py:158-160 | in a consistent database an id is found iff it is a row number |
| MobileAuth.FindIgnoresOtherFields | backend/routers/flutter/mobile_auth.py:158 | updating a row without changing its id does not change lookups |
| MobileAuth.AddKeepsConsistency | backend/routers/flutter/mobile_auth.py:170-181 | adding an interaction with the matching counter increment keeps every counter equal to its interaction count |
| MobileAuth.RemoveKeepsConsistency | backend/routers/flutter/mobile_auth.py:170-181 | deleting an interaction with the matching decrement keeps the invariant |
| MobileAuth.RecordedIsCounted | backend/routers/flutter/mobile_auth.py:170-181 | a recorded interaction makes its counter positive, so `max(0, n-1)` is n-1 |
| MobileAuth.Decrement | backend/routers/flutter/mobile_auth.py:172 | `max(0, n - 1)` never goes below 0 |
| MobileAuth.SupportStep | backend/routers/flutter/mobile_auth.py:151-188 | 404 iff the report is missing, and then nothing changes; an existing support is removed with the count max(0, n-1) and answer false, otherwise one is added with n+1 and answer true; only that row's support count changes |
| MobileAuth.VerifyStepAsWritten | backend/routers/flutter/mobile_auth.py:191-232 | 404 iff missing; 500 exactly when a new verification would bring the count to 5 or more; a 404 or a 500 leaves the database unchanged; every other call answers and updates as the corrected toggle does |
| MobileAuth.VerifyStep | backend/routers/flutter/mobile_auth.py:191-232 | the corrected toggle: 404 iff missing (no change), never a 500; an existing verification is removed with max(0, n-1) and false, otherwise added with n+1 and true, promoting PENDING to VERIFIED at five |
| MobileAuth.SupportKeepsConsistency | backend/routers/flutter/mobile_auth.py:170-181 | a support toggle keeps the invariant; measured against the old state, it adds the support (count +1, true) iff it was absent and removes it (count -1, false) otherwise |
| MobileAuth.VerifyKeepsConsistency | backend/routers/flutter/mobile_auth.py:210-225 | a verify toggle keeps the invariant and flips the verification against the old state in the same way |
| MobileAuth.SupportTwiceRestores | backend/routers/flutter/mobile_auth.py:157-181 | two support toggles by the same user restore the database |
| MobileAuth.SupportTwiceAt | backend/routers/flutter/mobile_auth.py:170-181 | the same, on the row holding the report |
| MobileAuth.VerifyTwiceRestores | backend/routers/flutter/mobile_auth.py:210-225 | two verify toggles restore interactions and counter; the status is at most promoted |
| MobileAuth.VerifyTwiceAt | backend/routers/flutter/mobile_auth.py:210-225 | the same, on the row holding the report |
| MobileAuth.StatusOnlyChanged | backend/routers/flutter/mobile_auth.py:223-225 | setting a status changes nothing else in the rows |
| MobileAuth.TogglesAreIndependent | backend/routers/flutter/mobile_auth.py:170-225 | a support toggle never changes verify counts, statuses or views; a verify toggle never changes support counts; neither touches other reports or profiles |
| MobileAuth.PromotionAtFive | backend/routers/flutter/mobile_auth.py:210-225 | after a verify add the report is VERIFIED iff it was, or it was PENDING and now has at least five |
| MobileAuth.AsWrittenVerifyStaysBelowFive | backend/routers/flutter/mobile_auth.py:221-225 | as written, verify counts never exceed 4 and the invariant is kept |
| MobileAuth.FifthVerifyFails | backend/routers/flutter/mobile_auth.py:224 | the fifth verifier of a PENDING report gets a 500 and the report stays PENDING with four |
| MobileAuth.StoredReport | backend/routers/flutter/mobile_auth.py:86-97 | the new row: the given id, author and category, PENDING, no image, zero supports, verifications and views, title, description and address with no white space at either end, city and coordinates as submitted |
| MobileAuth.CreateStep | backend/routers/flutter/mobile_auth.py:62-113 | 400 iff the upper-cased category is unknown, and then nothing changes |
| MobileAuth.CreateCountsReport | backend/routers/flutter/mobile_auth.py:86-104 | a created report is appended as PENDING with zero counters, the invariant is kept, and only the author's profile count rises by one |
| MobileAuth.CreateStepStores | backend/routers/flutter/mobile_auth.py:86-104 | a known category stores the stripped report under the next row number |
| MobileAuth.AuthorCounted | backend/routers/flutter/mobile_auth.py:100-104 | only the author's `total_reported` rises, by one, when they have a profile |
| MobileAuth.AppendKeepsConsistency | backend/routers/flutter/mobile_auth.py:86-97 | appending a fresh row with zero counters keeps the invariant |
| MobileAuth.CategoryFilter | backend/routers/flutter/mobile_auth.py:128-133 | no filter for a missing or empty category; a filter matches the upper-cased name |
| MobileAuth.NewestFirst | backend/routers/flutter/mobile_auth.py:135 | exactly the matching rows, newest first |
| MobileAuth.Page | backend/routers/flutter/mobile_auth.py:135 | `offset(skip).limit(limit)`: at most `limit` rows, the ones from `skip` on |
| MobileAuth.FeedRows | backend/routers/flutter/mobile_auth.py:128-135 | at most `limit` distinct rows of the category, newest first |
| MobileAuth.FeedIsNewestFirst | backend/routers/flutter/mobile_auth.py:135 | on the first page, every matching report left out is older than every report returned |
| MobileAuth.SkippedAreOlder | backend/routers/flutter/mobile_auth.py:135 | in a newest-first list an entry past the first n is older than each of them |
| MobileAuth.Bumped | backend/routers/flutter/mobile_auth.py:137-139 | selected rows have one more view; other rows are unchanged |
| MobileAuth.BumpedAt | backend/routers/flutter/mobile_auth.py:137-139 | a selected row's views rise by exactly one |
| MobileAuth.BumpOneMore | backend/routers/flutter/mobile_auth.py:137-139 | one loop step bumps the next row only |
| MobileAuth.FeedKeepsConsistency | backend/routers/flutter/mobile_auth.py:137-139 | counting views keeps the invariant |
| MobileAuth.CountViews | backend/routers/flutter/mobile_auth.py:137-139 | the view-counting loop gives `Bumped` |
| MobileAuth.ReportDatabase.constructor | backend/model/report.py:47-51 | an empty, consistent database |
| MobileAuth.ReportDatabase.CreateReport | backend/routers/flutter/mobile_auth.py:62-113 | the new state and answer are those of `CreateStep` |
| MobileAuth.ReportDatabase.GetFeed | backend/routers/flutter/mobile_auth.py:117-145 | the page is the selected rows with one more view each; only views change |
| MobileAuth.ReportDatabase.ToggleSupport | backend/routers/flutter/mobile_auth.py:151-188 | the new state and answer are those of `SupportStep` |
| MobileAuth.ReportDatabase.ToggleVerify | backend/routers/flutter/mobile_auth.py:191-232 | the new state and answer are those of the corrected `VerifyStep` |

## Left out

- Great-circle (Haversine) distance: floating-point trigonometry, taken as a parameter `Geo.Distance`.
- Pixel measurements (Laplacian variance, mean and standard deviation, contours, Canny, Otsu, `Image.open`/`verify`): inputs of `Measurements` and `ImageInput`.
- ML model loading, transforms, inference and softmax: replaced by the classifier's class and confidence. The `__init__` FileNotFoundError for a missing model is not modelled.
- HTTP requests to Nominatim and Overpass, JSON decoding and timeouts: replies are functions of the requested point. JSON values are strings.
- The Overpass query text (`_build_overpass_query`) and the search radius: not modelled.
- `round(x, 2)` on the AI score, `round(d, 3)` on distances, `round(distance_m, 1)` on landmarks and `round(x, 6)` on GPS values: values stay exact.
- Rendered message strings with `:.2f` formatting: the model chooses a message kind and keeps the values it formats.
- `time.sleep`'s possible oversleep: `Clock.Sleep` advances time by exactly the requested amount.
- `datetime.now` and `strptime`: the photo's age in days is an input.
- LandmarkFinder.SortByDistance: sort stability (Python's sort is stable) is not proved; only sortedness and permutation.
- `get_my_reports`, `_report_to_dict`, `get_health_status`, `get_model_info` and `get_thresholds`: read-only rendering, not modelled.
- Report ids are row numbers starting at 1. Ordering by `created_at` descending is reverse row order, because rows are created with a clock that does not run backwards.
- MobileAuth.Page: negative `skip` or `limit` are not modelled (they are `nat`).
- MobileAuth.UpperChar: `str.upper` is modelled for ASCII and the long s only; no other character's upper case consists of the letters of POTHOLE or TRASH.
- MobileAuth.ReportDatabase.ToggleVerify: uses the corrected promotion; the code as written is `VerifyStepAsWritten` (see Findings).
- Authentication, JWT and password hashing, the DB session and ORM plumbing, image storage to disk, and logging: not modelled.
- The `all_probabilities` and `image_hash` fields of the prediction record: not modelled.
- The `except` around geocoding in `verify_location` (penalty reason `ERROR_API_FAILURE`): the geocoder catches every exception itself, so this branch is not reachable and is not modelled.
- Concurrency between requests: each endpoint call is one atomic step.
- The `filename` field of `validate_all`'s result (the image path's base name): file paths are not modelled.
- InputValidator.Round2: `round(x, 2)` is modelled on exact values with a midway value rounding up; Python rounds the binary float, half to even, so the two can differ on a midway value. The scores of the checks and the overall quality go through it.
- ExifExtractor.ParseFloat: `float(text)` is modelled for an optional sign and decimal digits with an optional point; surrounding white space, exponents, underscores, `inf` and `nan` are taken as not numbers.

## Findings

| source | as written | input that shows it | evidently intended | confidence | as-written member | corrected member |
|---|---|---|---|---|---|---|
| backend/routers/flutter/mobile_auth.py:224 | promotion compares the status with `ReportStatus.REPORTED`, which `ReportStatus` (backend/model/report.py:11-16) does not define | a verify add that takes `verify_count` from 4 to 5 raises AttributeError; the request answers 500 and the session rolls back the add | a PENDING report reaching five verifications becomes VERIFIED | not executed | MobileAuth.VerifyStepAsWritten, MobileAuth.FifthVerifyFails, MobileAuth.AsWrittenVerifyStaysBelowFive | MobileAuth.VerifyStep, MobileAuth.PromotionAtFive |
