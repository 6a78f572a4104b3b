/**
 * Reverse geocoding through OpenStreetMap Nominatim, with the one-request-per-second
 * rate limit Nominatim's usage policy asks for. The HTTP exchange is a parameter
 * (the reply Nominatim would give for a point); the wall clock is a `Clock` object
 * that only `sleep` advances.
 */
module Geocoding {
  import opened Wrappers
  import opened Geo
  import opened LandmarkConfig

  /** The process's wall clock, in seconds. */
  class Clock {
    var now: real

    constructor(start: real)
      ensures now == start
    {
      now := start;
    }

    /** `time.sleep(d)`, taken to sleep exactly `d` seconds. */
    method Sleep(d: real)
      requires d >= 0.0
      modifies this
      ensures now == old(now) + d
    {
      now := now + d;
    }
  }

  /**
   * When the next request may go out: at once if the previous one is at least
   * `NOMINATIM_DELAY` seconds old, otherwise exactly `NOMINATIM_DELAY` after it.
   */
  function WakeTime(now: real, last: real): (t: real)
    ensures t >= now
    ensures t >= last + NOMINATIM_DELAY
    ensures t == now || t == last + NOMINATIM_DELAY
  {
    if now - last < NOMINATIM_DELAY then last + NOMINATIM_DELAY else now
  }

  /**
   * The send times of successive requests made at clock readings `calls`, starting
   * from a last-request time `last`. A call cannot start before the previous one
   * has been sent, so each starts at the later of its reading and the previous send.
   */
  function SendTimes(last: real, calls: seq<real>): (ts: seq<real>)
    ensures |ts| == |calls|
    decreases calls
  {
    if calls == [] then []
    else
      var t := WakeTime(if calls[0] >= last then calls[0] else last, last);
      [t] + SendTimes(t, calls[1..])
  }

  /** Any two consecutive requests are at least `NOMINATIM_DELAY` seconds apart, and so is the first from `last`. */
  lemma {:induction false} SendTimesSpaced(last: real, calls: seq<real>)
    ensures forall i :: 0 < i < |calls| ==> SendTimes(last, calls)[i] >= SendTimes(last, calls)[i - 1] + NOMINATIM_DELAY
    ensures |calls| > 0 ==> SendTimes(last, calls)[0] >= last + NOMINATIM_DELAY
    decreases calls
  {
    if calls != [] {
      var ts := SendTimes(last, calls);
      var t := ts[0];
      SendTimesSpaced(t, calls[1..]);
      assert ts[1..] == SendTimes(t, calls[1..]);
      forall i | 0 < i < |calls|
        ensures ts[i] >= ts[i - 1] + NOMINATIM_DELAY
      {
        if i > 1 {
          assert ts[i] == ts[1..][i - 1] && ts[i - 1] == ts[1..][i - 2];
        }
      }
    }
  }

  /** A Nominatim reply: the request failed (timeout, HTTP error, bad JSON), or a JSON object. */
  datatype NominatimReply =
    | RequestFailed
    | Json(fields: map<string, string>, address: Option<map<string, string>>)

  /** The `lat`/`lon` of a result: Nominatim's text, or (when absent) the requested number. */
  datatype CoordText = Echoed(text: string) | Requested(value: real)

  datatype Address = Address(
    displayName: string,
    road: string,
    suburb: string,
    city: string,
    state: string,
    country: string,
    postcode: string,
    lat: CoordText,
    lon: CoordText)

  /** `dict.get(k, default)`: a present key keeps its value, even an empty one. */
  function Get(m: map<string, string>, k: string, default: string): (v: string)
    ensures k in m ==> v == m[k]
    ensures k !in m ==> v == default
  {
    if k in m then m[k] else default
  }

  /** The result dictionary built from a successful reply. */
  function AddressOf(c: Coord, fields: map<string, string>, address: map<string, string>): (a: Address)
    ensures "display_name" !in fields ==> a.displayName == "Unknown location"
    ensures "display_name" in fields ==> a.displayName == fields["display_name"]
    ensures "road" !in address && "highway" !in address ==> a.road == ""
    ensures "road" in address ==> a.road == address["road"]
    ensures "road" !in address && "highway" in address ==> a.road == address["highway"]
    ensures "suburb" in address ==> a.suburb == address["suburb"]
    ensures "suburb" !in address && "neighbourhood" in address ==> a.suburb == address["neighbourhood"]
    ensures "suburb" !in address && "neighbourhood" !in address ==> a.suburb == ""
    ensures "city" in address ==> a.city == address["city"]
    ensures "city" !in address && "town" in address ==> a.city == address["town"]
    ensures "city" !in address && "town" !in address && "village" in address ==> a.city == address["village"]
    ensures "city" !in address && "town" !in address && "village" !in address ==> a.city == ""
    ensures "state" in address ==> a.state == address["state"]
    ensures "state" !in address && "province" in address ==> a.state == address["province"]
    ensures "state" !in address && "province" !in address ==> a.state == ""
    ensures a.country == if "country" in address then address["country"] else ""
    ensures a.postcode == if "postcode" in address then address["postcode"] else ""
    ensures a.lat == if "lat" in fields then Echoed(fields["lat"]) else Requested(c.lat)
    ensures a.lon == if "lon" in fields then Echoed(fields["lon"]) else Requested(c.lon)
  {
    Address(
      Get(fields, "display_name", "Unknown location"),
      Get(address, "road", Get(address, "highway", "")),
      Get(address, "suburb", Get(address, "neighbourhood", "")),
      Get(address, "city", Get(address, "town", Get(address, "village", ""))),
      Get(address, "state", Get(address, "province", "")),
      Get(address, "country", ""),
      Get(address, "postcode", ""),
      if "lat" in fields then Echoed(fields["lat"]) else Requested(c.lat),
      if "lon" in fields then Echoed(fields["lon"]) else Requested(c.lon))
  }

  /** The value `reverse_geocode` returns for point `c` when Nominatim answers `reply`. */
  function ReverseGeocodeSpec(c: Coord, reply: NominatimReply): (r: Option<Address>)
    ensures r.Some? <==>
      (IsValidCoordinate(c.lat, c.lon) && reply.Json? &&
       !(reply.fields == map[] && reply.address.None?) && "error" !in reply.fields)
  {
    if !IsValidCoordinate(c.lat, c.lon) then None
    else
      match reply
      case RequestFailed => None
      case Json(fields, address) =>
        if (fields == map[] && address.None?) || "error" in fields then None
        else Some(AddressOf(c, fields, address.GetOr(map[])))
  }

  /** `', '.join(parts)`: the parts in order, with ", " between each two. */
  function Join(parts: seq<string>): (s: string)
    ensures parts == [] ==> s == ""
    ensures |parts| == 1 ==> s == parts[0]
    ensures |parts| >= 2 ==> s == parts[0] + ", " + Join(parts[1..])
    ensures (exists i :: 0 <= i < |parts| && parts[i] != "") ==> s != ""
  {
    if parts == [] then ""
    else if |parts| == 1 then parts[0]
    else
      assert forall i :: 1 <= i < |parts| ==> parts[i] == parts[1..][i - 1];
      parts[0] + ", " + Join(parts[1..])
  }

  /** Joining one more part appends ", " and that part. */
  lemma {:induction false} JoinAppend(parts: seq<string>, p: string)
    requires parts != []
    ensures Join(parts + [p]) == Join(parts) + ", " + p
    decreases |parts|
  {
    if |parts| == 1 {
      assert (parts + [p])[1..] == [p];
    } else {
      assert (parts + [p])[1..] == parts[1..] + [p];
      JoinAppend(parts[1..], p);
    }
  }

  /** The components of the short address: road, then suburb or else city, then state; empty ones left out. */
  function ShortParts(a: Address): (parts: seq<string>)
    ensures |parts| <= 3
    ensures forall i :: 0 <= i < |parts| ==> parts[i] != ""
    ensures a.road != "" <==> |parts| > 0 && parts[0] == a.road
    ensures parts == [] <==> a.road == "" && a.suburb == "" && a.city == "" && a.state == ""
  {
    (if a.road != "" then [a.road] else [])
    + (if a.suburb != "" then [a.suburb] else if a.city != "" then [a.city] else [])
    + (if a.state != "" then [a.state] else [])
  }

  /** The short address: the joined components, or the full display name when there are none. */
  function ShortAddress(a: Address): (s: string)
    ensures ShortParts(a) != [] ==> s != "" && s == Join(ShortParts(a))
    ensures ShortParts(a) == [] ==> s == a.displayName
    ensures a.road != "" && a.suburb != "" && a.state != "" ==> s == a.road + ", " + a.suburb + ", " + a.state
    ensures a.road != "" && a.suburb == "" && a.city != "" && a.state != "" ==> s == a.road + ", " + a.city + ", " + a.state
  {
    var parts := ShortParts(a);
    if parts != [] then Join(parts) else a.displayName
  }

  /** The suburb takes precedence over the city; the city appears only where there is no suburb. */
  lemma SuburbBeforeCity(a: Address)
    requires a.suburb != "" || a.city != ""
    ensures a.suburb != "" ==> a.suburb in ShortParts(a) && (a.city != a.suburb && a.city != a.road && a.city != a.state ==> a.city !in ShortParts(a))
    ensures a.suburb == "" ==> a.city in ShortParts(a)
  {
  }

  class Geocoder {
    var lastRequestTime: real

    constructor()
      ensures lastRequestTime == 0.0
    {
      lastRequestTime := 0.0;
    }

    /** `_respect_rate_limit`: sleep until `NOMINATIM_DELAY` has passed since the last request, then note the time. */
    method RespectRateLimit(clock: Clock)
      modifies this, clock
      ensures clock.now == WakeTime(old(clock.now), old(lastRequestTime))
      ensures lastRequestTime == clock.now
    {
      var timeSinceLastRequest := clock.now - lastRequestTime;
      if timeSinceLastRequest < NOMINATIM_DELAY {
        clock.Sleep(NOMINATIM_DELAY - timeSinceLastRequest);
      }
      lastRequestTime := clock.now;
    }

    /**
     * `reverse_geocode`: an invalid point is refused before any wait; otherwise the
     * rate limit is respected and the reply is mapped to an address.
     */
    method ReverseGeocode(c: Coord, nominatim: Coord -> NominatimReply, clock: Clock) returns (r: Option<Address>)
      modifies this, clock
      ensures r == ReverseGeocodeSpec(c, nominatim(c))
      ensures !IsValidCoordinate(c.lat, c.lon) ==> clock.now == old(clock.now) && lastRequestTime == old(lastRequestTime)
      ensures IsValidCoordinate(c.lat, c.lon) ==>
        clock.now == WakeTime(old(clock.now), old(lastRequestTime)) && lastRequestTime == clock.now
    {
      if !IsValidCoordinate(c.lat, c.lon) {
        return None;
      }
      RespectRateLimit(clock);
      var reply := nominatim(c);
      match reply
      case RequestFailed =>
        r := None;
      case Json(fields, address) =>
        if (fields == map[] && address.None?) || "error" in fields {
          r := None;
        } else {
          var addressData := address.GetOr(map[]);
          r := Some(AddressOf(c, fields, addressData));
        }
    }

    /** `get_short_address`: geocode, then assemble road, suburb or city, and state. */
    method GetShortAddress(c: Coord, nominatim: Coord -> NominatimReply, clock: Clock) returns (r: Option<string>)
      modifies this, clock
      ensures ReverseGeocodeSpec(c, nominatim(c)).None? ==> r.None?
      ensures ReverseGeocodeSpec(c, nominatim(c)).Some? ==> r == Some(ShortAddress(ReverseGeocodeSpec(c, nominatim(c)).value))
      ensures !IsValidCoordinate(c.lat, c.lon) ==> clock.now == old(clock.now) && lastRequestTime == old(lastRequestTime)
      ensures IsValidCoordinate(c.lat, c.lon) ==>
        clock.now == WakeTime(old(clock.now), old(lastRequestTime)) && lastRequestTime == clock.now
    {
      var addressData := ReverseGeocode(c, nominatim, clock);
      if addressData.None? {
        return None;
      }
      var a := addressData.value;
      var parts: seq<string> := [];
      if a.road != "" {
        parts := parts + [a.road];
      }
      if a.suburb != "" {
        parts := parts + [a.suburb];
      } else if a.city != "" {
        parts := parts + [a.city];
      }
      if a.state != "" {
        parts := parts + [a.state];
      }
      assert parts == ShortParts(a);
      r := Some(if parts != [] then Join(parts) else a.displayName);
    }
  }
}
