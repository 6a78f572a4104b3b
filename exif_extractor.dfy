/**
 * GPS position and camera metadata read out of a photo's EXIF block. The EXIF
 * dictionary PIL returns is an input, with its tag identifiers already mapped to
 * their names; what is modelled is the tag collection, the degrees/minutes/seconds
 * conversion and every path that yields "no GPS".
 */
module ExifExtractor {
  import opened Wrappers

  /** A value inside the GPSInfo block: a tuple of rationals, a single rational, or text. */
  datatype GpsValue =
    | Rationals(parts: seq<real>)
    | Number(x: real)
    | Text(s: string)
  {
    /** Python truthiness: an empty tuple, zero and the empty string are false. */
    predicate Truthy()
    {
      match this
      case Rationals(p) => |p| > 0
      case Number(x) => x != 0.0
      case Text(s) => |s| > 0
    }
  }

  /** A top-level EXIF value: the nested GPSInfo dictionary, or any other value. */
  datatype ExifValue = GpsBlock(items: seq<(string, GpsValue)>) | Plain(text: string)

  /** What `Image.open(...)._getexif()` gives: it raises, returns None, or a dictionary in iteration order. */
  datatype ImageExif = ExifUnreadable | NoExifData | ExifEntries(entries: seq<(string, ExifValue)>)

  /** The extracted record; the `Option` fields are the optional keys of the source's dictionary. */
  datatype GpsData = GpsData(
    latitude: real,
    longitude: real,
    altitude: Option<real>,
    gpsTimestamp: Option<(GpsValue, GpsValue)>,  // GPSDateStamp and GPSTimeStamp, joined by a space
    cameraMake: Option<ExifValue>,               // stored as str() of the value
    cameraModel: Option<ExifValue>,
    photoTimestamp: Option<ExifValue>)

  predicate IsDigit(c: char) { '0' <= c <= '9' }

  function DigitValue(c: char): real
    requires IsDigit(c)
  {
    (c as int - '0' as int) as real
  }

  predicate AllDigits(s: string)
  {
    forall k :: 0 <= k < |s| ==> IsDigit(s[k])
  }

  /** The value of a string of decimal digits (0 for the empty string). */
  function DigitsValue(s: string): (v: real)
    requires AllDigits(s)
    ensures v >= 0.0
  {
    if s == [] then 0.0 else DigitsValue(s[..|s| - 1]) * 10.0 + DigitValue(s[|s| - 1])
  }

  function Pow10(n: nat): (p: real)
    ensures p >= 1.0
  {
    if n == 0 then 1.0 else 10.0 * Pow10(n - 1)
  }

  /** The index of the first '.' in `s[i..]`, or `|s|` when there is none. */
  function DotIndex(s: string, i: nat): (k: nat)
    requires i <= |s|
    ensures i <= k <= |s|
    ensures forall j :: i <= j < k ==> s[j] != '.'
    ensures k < |s| ==> s[k] == '.'
    decreases |s| - i
  {
    if i == |s| || s[i] == '.' then i else DotIndex(s, i + 1)
  }

  /**
   * Digits, optionally followed by a point and more digits, with at least one digit in all.
   * Anything else, a lone point included, is not a number.
   */
  function ParseUnsigned(s: string): (r: Option<real>)
    ensures r.Some? ==> r.value >= 0.0
    ensures r.Some? <==>
      var k := DotIndex(s, 0);
      AllDigits(s[..k]) && (k < |s| ==> AllDigits(s[k + 1..])) && s != [] && s != "."
    ensures AllDigits(s) && s != [] ==> r == Some(DigitsValue(s))
  {
    var k := DotIndex(s, 0);
    var whole := s[..k];
    var fraction := if k < |s| then s[k + 1..] else [];
    assert k == |s| ==> whole == s;
    if AllDigits(whole) && AllDigits(fraction) && |whole| + |fraction| > 0 then
      Some(DigitsValue(whole) + DigitsValue(fraction) / Pow10(|fraction|))
    else None
  }

  /** A string of n digits is worth at most 10^n - 1. */
  lemma {:induction false} DigitsBelowPow10(s: string)
    requires AllDigits(s)
    ensures DigitsValue(s) <= Pow10(|s|) - 1.0
  {
    if s != [] {
      var t := s[..|s| - 1];
      assert AllDigits(t);
      DigitsBelowPow10(t);
      assert DigitValue(s[|s| - 1]) <= 9.0;
      assert DigitsValue(t) * 10.0 <= (Pow10(|t|) - 1.0) * 10.0;
    }
  }

  /**
   * Whole digits `w`, a point and fraction digits `f` read as `w` plus `f` scaled
   * down by 10^|f|; the fraction never reaches a whole unit, so the value lies in
   * [w, w + 1).
   */
  lemma PointedDecimal(w: string, f: string)
    requires AllDigits(w) && AllDigits(f) && |w| + |f| > 0
    ensures var r := ParseUnsigned(w + "." + f);
      r == Some(DigitsValue(w) + DigitsValue(f) / Pow10(|f|)) &&
      DigitsValue(w) <= r.value < DigitsValue(w) + 1.0
  {
    var s := w + "." + f;
    DotAt(w, f);
    assert s[..|w|] == w;
    assert s[|w| + 1..] == f;
    ParseAtPoint(s, w, f);
    FractionBelowOne(f);
  }

  /** A string whose first point follows the digits `w` and precedes the digits `f` reads as `w` plus scaled `f`. */
  lemma ParseAtPoint(s: string, w: string, f: string)
    requires |w| < |s| && |w| == DotIndex(s, 0) && |s| > 1
    requires s[..|w|] == w && s[|w| + 1..] == f && AllDigits(w) && AllDigits(f)
    ensures ParseUnsigned(s) == Some(DigitsValue(w) + DigitsValue(f) / Pow10(|f|))
  {
  }

  /** Fraction digits scaled down by 10^|f| lie in [0, 1). */
  lemma FractionBelowOne(f: string)
    requires AllDigits(f)
    ensures 0.0 <= DigitsValue(f) / Pow10(|f|) < 1.0
  {
    DigitsBelowPow10(f);
  }

  /** The first point of `w + "." + f` is the one after `w` when `w` has none. */
  lemma DotAt(w: string, f: string)
    requires AllDigits(w)
    ensures DotIndex(w + "." + f, 0) == |w|
  {
    assert (w + "." + f)[|w|] == '.';
  }

  /**
   * `float(s)` on text: an optional sign, then digits with an optional decimal
   * point; anything else raises ValueError, here None.
   */
  function ParseFloat(s: string): (r: Option<real>)
    ensures r.Some? ==> s != []
    ensures s != [] && s[0] == '-' ==> r == (if ParseUnsigned(s[1..]).Some? then Some(-ParseUnsigned(s[1..]).value) else None)
    ensures s != [] && s[0] == '+' ==> r == ParseUnsigned(s[1..])
    ensures AllDigits(s) ==> r == ParseUnsigned(s)
  {
    if s != [] && s[0] == '-' then
      match ParseUnsigned(s[1..])
      case None => None
      case Some(v) => Some(-v)
    else if s != [] && s[0] == '+' then ParseUnsigned(s[1..])
    else ParseUnsigned(s)
  }

  /** Plain decimals parse to their value. */
  lemma ParseFloatReadsDecimals()
    ensures ParseFloat("12.5") == Some(12.5)
    ensures ParseFloat("-3") == Some(-3.0)
  {
    assert DotIndex("12.5", 0) == 2;
    assert "12.5"[..2] == "12" && "12.5"[3..] == "5";
    assert "12"[..1] == "1";
    assert DigitsValue("12") == 12.0;
    assert DigitsValue("5") == 5.0;
    assert "-3"[1..] == "3";
    assert DigitsValue("3") == 3.0;
  }

  /** A lone point, a lone sign and a trailing letter do not parse. */
  lemma ParseFloatRejectsNonNumbers()
    ensures ParseFloat(".") == None
    ensures ParseFloat("-") == None
    ensures ParseFloat("1a") == None
  {
    assert DotIndex(".", 0) == 0;
    assert "."[..0] == "" && "."[1..] == "";
    assert "-"[1..] == "";
    assert DotIndex("1a", 0) == 2;
    assert !IsDigit("1a"[1]);
  }

  /** Degrees, minutes and seconds to decimal degrees. */
  function Dms(d: real, m: real, s: real): real
  {
    d + m / 60.0 + s / 3600.0
  }

  /** The southern and western hemispheres are negative. */
  predicate IsNegativeRef(ref: GpsValue)
  {
    ref == Text("S") || ref == Text("W")
  }

  /**
   * `_convert_gps_coordinate`: a missing or empty coordinate or reference gives None;
   * a coordinate whose first three entries cannot be read as numbers (too short: an
   * IndexError; a single rational: a TypeError; non-digit text: a ValueError) gives
   * None; otherwise degrees + minutes/60 + seconds/3600, negated for S and W.
   */
  function ConvertCoordinate(coord: Option<GpsValue>, ref: Option<GpsValue>): (r: Option<real>)
    ensures r.Some? ==> coord.Some? && coord.value.Truthy() && ref.Some? && ref.value.Truthy()
    ensures coord.Some? && coord.value.Rationals? && |coord.value.parts| >= 3 && ref.Some? && ref.value.Truthy() ==>
      var p := coord.value.parts;
      r == Some(if IsNegativeRef(ref.value) then -Dms(p[0], p[1], p[2]) else Dms(p[0], p[1], p[2]))
    ensures coord.Some? && coord.value.Number? ==> r.None?
    ensures coord.Some? && coord.value.Rationals? && |coord.value.parts| < 3 ==> r.None?
    ensures coord.Some? && coord.value.Text? ==>
      var t := coord.value.s;
      (r.Some? <==> ref.Some? && ref.value.Truthy() && |t| >= 3 && IsDigit(t[0]) && IsDigit(t[1]) && IsDigit(t[2]))
  {
    if coord.None? || !coord.value.Truthy() || ref.None? || !ref.value.Truthy() then None
    else
      var magnitude: Option<real> :=
        match coord.value
        case Rationals(p) => if |p| < 3 then None else Some(Dms(p[0], p[1], p[2]))
        case Number(_) => None
        case Text(s) =>
          if |s| < 3 || !IsDigit(s[0]) || !IsDigit(s[1]) || !IsDigit(s[2]) then None
          else Some(Dms(DigitValue(s[0]), DigitValue(s[1]), DigitValue(s[2])));
      match magnitude
      case None => None
      case Some(v) => Some(if IsNegativeRef(ref.value) then -v else v)
  }

  /** The reference letter only decides the sign: S gives the negation of N, W of E. */
  lemma HemisphereSign(coord: Option<GpsValue>)
    ensures ConvertCoordinate(coord, Some(Text("S"))).Some? <==> ConvertCoordinate(coord, Some(Text("N"))).Some?
    ensures ConvertCoordinate(coord, Some(Text("S"))).Some? ==>
      ConvertCoordinate(coord, Some(Text("S"))).value == -ConvertCoordinate(coord, Some(Text("N"))).value
    ensures ConvertCoordinate(coord, Some(Text("W"))) == ConvertCoordinate(coord, Some(Text("S")))
    ensures ConvertCoordinate(coord, Some(Text("E"))) == ConvertCoordinate(coord, Some(Text("N")))
  {
    assert Text("S") != Text("N") && Text("W") != Text("E");
  }

  /** With minutes and seconds under 60, the decimal value lies less than 1 + 1/60 above the degrees. */
  lemma DmsWithinDegree(d: real, m: real, s: real)
    requires 0.0 <= m < 60.0 && 0.0 <= s < 60.0
    ensures d <= Dms(d, m, s) < d + 1.0 + 1.0 / 60.0
  {
  }

  /** `_convert_altitude`: no value, a value, or an IndexError that escapes the function. */
  datatype AltitudeOutcome = NoAltitude | Altitude(meters: real) | AltitudeRaises

  /**
   * `_convert_altitude`: an empty value gives None; a tuple gives its first entry
   * over its second (a zero denominator gives None, a one-entry tuple raises an
   * IndexError the function does not catch); a rational is taken as it is, and text
   * is parsed as a number (None when it is not one).
   */
  function ConvertAltitude(a: GpsValue): (r: AltitudeOutcome)
    ensures !a.Truthy() ==> r == NoAltitude
    ensures r.AltitudeRaises? <==> a.Rationals? && |a.parts| == 1
    ensures a.Number? && a.Truthy() ==> r == Altitude(a.x)
    ensures a.Rationals? && |a.parts| >= 2 && a.parts[1] != 0.0 ==> r == Altitude(a.parts[0] / a.parts[1])
    ensures a.Rationals? && |a.parts| >= 2 && a.parts[1] == 0.0 ==> r == NoAltitude
    ensures a.Text? ==> (r.Altitude? <==> ParseFloat(a.s).Some?) && (r.Altitude? ==> r.meters == ParseFloat(a.s).value)
  {
    if !a.Truthy() then NoAltitude
    else
      match a
      case Rationals(p) =>
        if |p| < 2 then AltitudeRaises
        else if p[1] == 0.0 then NoAltitude
        else Altitude(p[0] / p[1])
      case Number(x) => Altitude(x)
      case Text(t) =>
        match ParseFloat(t)
        case None => NoAltitude
        case Some(x) => Altitude(x)
  }

  /** The GPS dictionary after storing `items` into `m` in order, a later item overwriting an earlier one. */
  function MergeGps(m: map<string, GpsValue>, items: seq<(string, GpsValue)>): map<string, GpsValue>
  {
    if items == [] then m
    else MergeGps(m, items[..|items| - 1])[items[|items| - 1].0 := items[|items| - 1].1]
  }

  /** A key is present exactly when it was present before or some item carries it. */
  lemma {:induction false} MergeGpsKeys(m: map<string, GpsValue>, items: seq<(string, GpsValue)>, k: string)
    ensures k in MergeGps(m, items) <==> k in m || exists j :: 0 <= j < |items| && items[j].0 == k
  {
    if items != [] {
      var prefix := items[..|items| - 1];
      MergeGpsKeys(m, prefix, k);
      assert forall j :: 0 <= j < |prefix| ==> prefix[j] == items[j];
    }
  }

  /** A key keeps the value of the last item that carries it. */
  lemma {:induction false} MergeGpsLastWins(m: map<string, GpsValue>, items: seq<(string, GpsValue)>, j: nat)
    requires j < |items|
    requires forall j' :: j < j' < |items| ==> items[j'].0 != items[j].0
    ensures items[j].0 in MergeGps(m, items) && MergeGps(m, items)[items[j].0] == items[j].1
  {
    if j < |items| - 1 {
      var prefix := items[..|items| - 1];
      assert prefix[j] == items[j];
      MergeGpsLastWins(m, prefix, j);
    }
  }

  /** A key no item carries keeps its earlier value. */
  lemma {:induction false} MergeGpsUntouched(m: map<string, GpsValue>, items: seq<(string, GpsValue)>, k: string)
    requires k in m
    requires forall j :: 0 <= j < |items| ==> items[j].0 != k
    ensures k in MergeGps(m, items) && MergeGps(m, items)[k] == m[k]
  {
    if items != [] {
      var prefix := items[..|items| - 1];
      assert forall j :: 0 <= j < |prefix| ==> prefix[j] == items[j];
      MergeGpsUntouched(m, prefix, k);
    }
  }

  /** The two dictionaries the tag loop builds: the plain tags and the GPS tags. */
  datatype Collected = Collected(exifDict: map<string, ExifValue>, gpsInfo: map<string, GpsValue>)

  /**
   * The tag loop: GPSInfo entries are merged into the GPS dictionary, every other
   * tag into the plain one. A GPSInfo entry that is not a dictionary makes
   * `.items()` raise, and the whole extraction gives None.
   */
  function CollectTags(entries: seq<(string, ExifValue)>): (r: Option<Collected>)
    ensures r.Some? <==> forall j :: 0 <= j < |entries| && entries[j].0 == "GPSInfo" ==> entries[j].1.GpsBlock?
  {
    if entries == [] then Some(Collected(map[], map[]))
    else
      var (name, value) := entries[|entries| - 1];
      match CollectTags(entries[..|entries| - 1])
      case None => None
      case Some(c) =>
        if name == "GPSInfo" then
          match value
          case GpsBlock(items) => Some(Collected(c.exifDict, MergeGps(c.gpsInfo, items)))
          case Plain(_) => None
        else Some(Collected(c.exifDict[name := value], c.gpsInfo))
  }

  /** Without any GPSInfo entry the GPS dictionary stays empty. */
  lemma {:induction false} NoGpsInfoNoGps(entries: seq<(string, ExifValue)>)
    requires forall j :: 0 <= j < |entries| ==> entries[j].0 != "GPSInfo"
    ensures CollectTags(entries).Some? && CollectTags(entries).value.gpsInfo == map[]
  {
    if entries != [] {
      var prefix := entries[..|entries| - 1];
      assert forall j :: 0 <= j < |prefix| ==> prefix[j] == entries[j];
      NoGpsInfoNoGps(prefix);
    }
  }

  function Lookup<V>(m: map<string, V>, k: string): Option<V>
  {
    if k in m then Some(m[k]) else None
  }

  /** The record `extract_gps` builds from the two collected dictionaries. */
  function BuildResult(c: Collected): (r: Option<GpsData>)
    ensures r.Some? ==> c.gpsInfo != map[]
    ensures r.Some? ==>
      (r.value.gpsTimestamp.Some? <==> "GPSDateStamp" in c.gpsInfo && "GPSTimeStamp" in c.gpsInfo) &&
      r.value.cameraMake == Lookup(c.exifDict, "Make") && r.value.cameraModel == Lookup(c.exifDict, "Model") &&
      r.value.photoTimestamp == Lookup(c.exifDict, "DateTime")
  {
    var gps := c.gpsInfo;
    if gps == map[] then None
    else
      var lat := ConvertCoordinate(Lookup(gps, "GPSLatitude"), Lookup(gps, "GPSLatitudeRef"));
      var lon := ConvertCoordinate(Lookup(gps, "GPSLongitude"), Lookup(gps, "GPSLongitudeRef"));
      if lat.None? || lon.None? then None
      else
        var altitude := if "GPSAltitude" in gps then ConvertAltitude(gps["GPSAltitude"]) else NoAltitude;
        if altitude.AltitudeRaises? then None
        else
          Some(GpsData(
            lat.value, lon.value,
            if altitude.Altitude? && altitude.meters != 0.0 then Some(altitude.meters) else None,
            if "GPSDateStamp" in gps && "GPSTimeStamp" in gps then Some((gps["GPSDateStamp"], gps["GPSTimeStamp"])) else None,
            Lookup(c.exifDict, "Make"),
            Lookup(c.exifDict, "Model"),
            Lookup(c.exifDict, "DateTime")))
  }

  /** The value `extract_gps` returns. */
  function ExtractGpsSpec(exif: ImageExif): (r: Option<GpsData>)
    ensures r.Some? ==> exif.ExifEntries? && exif.entries != []
  {
    match exif
    case ExifUnreadable => None
    case NoExifData => None
    case ExifEntries(entries) =>
      if entries == [] then None
      else
        match CollectTags(entries)
        case None => None
        case Some(c) => BuildResult(c)
  }

  /**
   * `extract_gps`: walk the tags (and the GPSInfo block nested in them) into two
   * dictionaries, then convert latitude and longitude and add the optional fields.
   */
  method ExtractGps(exif: ImageExif) returns (r: Option<GpsData>)
    ensures r == ExtractGpsSpec(exif)
  {
    if !exif.ExifEntries? || exif.entries == [] {
      return None;
    }
    var entries := exif.entries;
    var exifDict: map<string, ExifValue> := map[];
    var gpsInfo: map<string, GpsValue> := map[];
    var i := 0;
    while i < |entries|
      invariant 0 <= i <= |entries|
      invariant CollectTags(entries[..i]) == Some(Collected(exifDict, gpsInfo))
    {
      var (name, value) := entries[i];
      assert entries[..i + 1][..i] == entries[..i];
      if name == "GPSInfo" {
        if !value.GpsBlock? {
          // `.items()` on a non-dictionary raises; the handler returns None.
          assert CollectTags(entries[..i + 1]).None?;
          CollectNoneStaysNone(entries, i + 1);
          assert entries[..|entries|] == entries;
          return None;
        }
        var items := value.items;
        var g0 := gpsInfo;
        var j := 0;
        while j < |items|
          invariant 0 <= j <= |items|
          invariant gpsInfo == MergeGps(g0, items[..j])
        {
          assert items[..j + 1][..j] == items[..j];
          gpsInfo := gpsInfo[items[j].0 := items[j].1];
          j := j + 1;
        }
        assert items[..j] == items;
      } else {
        exifDict := exifDict[name := value];
      }
      i := i + 1;
    }
    assert entries[..i] == entries;
    r := BuildResult(Collected(exifDict, gpsInfo));
  }

  /** Once the tag loop has failed, it stays failed for every longer prefix. */
  lemma {:induction false} CollectNoneStaysNone(entries: seq<(string, ExifValue)>, k: nat)
    requires k <= |entries|
    requires CollectTags(entries[..k]).None?
    ensures CollectTags(entries).None?
    decreases |entries| - k
  {
    if k < |entries| {
      assert entries[..k + 1][..k] == entries[..k];
      CollectNoneStaysNone(entries, k + 1);
    } else {
      assert entries[..k] == entries;
    }
  }

  /** `has_gps_data`: the extraction yields a record. */
  method HasGpsData(exif: ImageExif) returns (b: bool)
    ensures b <==> ExtractGpsSpec(exif).Some?
  {
    var gps := ExtractGps(exif);
    b := gps.Some?;
  }

  /**
   * A photo yields a position exactly when its EXIF tags collect, hold some GPS tag,
   * both coordinates convert, and a GPSAltitude, if present, does not raise; the
   * position is the converted latitude and longitude.
   */
  lemma ExtractSomeIff(entries: seq<(string, ExifValue)>)
    requires entries != []
    ensures ExtractGpsSpec(ExifEntries(entries)).Some? <==>
      var c := CollectTags(entries);
      c.Some? && c.value.gpsInfo != map[] &&
      ConvertCoordinate(Lookup(c.value.gpsInfo, "GPSLatitude"), Lookup(c.value.gpsInfo, "GPSLatitudeRef")).Some? &&
      ConvertCoordinate(Lookup(c.value.gpsInfo, "GPSLongitude"), Lookup(c.value.gpsInfo, "GPSLongitudeRef")).Some? &&
      !("GPSAltitude" in c.value.gpsInfo && ConvertAltitude(c.value.gpsInfo["GPSAltitude"]).AltitudeRaises?)
    ensures ExtractGpsSpec(ExifEntries(entries)).Some? ==>
      var g := CollectTags(entries).value.gpsInfo;
      var r := ExtractGpsSpec(ExifEntries(entries)).value;
      Some(r.latitude) == ConvertCoordinate(Lookup(g, "GPSLatitude"), Lookup(g, "GPSLatitudeRef")) &&
      Some(r.longitude) == ConvertCoordinate(Lookup(g, "GPSLongitude"), Lookup(g, "GPSLongitudeRef")) &&
      (r.altitude.Some? <==>
        "GPSAltitude" in g && ConvertAltitude(g["GPSAltitude"]).Altitude? && ConvertAltitude(g["GPSAltitude"]).meters != 0.0) &&
      (r.altitude.Some? ==> r.altitude.value == ConvertAltitude(g["GPSAltitude"]).meters) &&
      (r.gpsTimestamp.Some? <==> "GPSDateStamp" in g && "GPSTimeStamp" in g) &&
      (r.gpsTimestamp.Some? ==> r.gpsTimestamp.value == (g["GPSDateStamp"], g["GPSTimeStamp"])) &&
      r.cameraMake == Lookup(CollectTags(entries).value.exifDict, "Make") &&
      r.cameraModel == Lookup(CollectTags(entries).value.exifDict, "Model") &&
      r.photoTimestamp == Lookup(CollectTags(entries).value.exifDict, "DateTime")
  {
  }

  /** A photo without a GPSInfo tag never yields a position, whatever its other tags. */
  lemma NoGpsInfoNoPosition(entries: seq<(string, ExifValue)>)
    requires forall j :: 0 <= j < |entries| ==> entries[j].0 != "GPSInfo"
    ensures ExtractGpsSpec(ExifEntries(entries)).None?
  {
    if entries != [] {
      NoGpsInfoNoGps(entries);
    }
  }
}
