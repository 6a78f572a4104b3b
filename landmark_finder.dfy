/**
 * Nearby points of interest from an OpenStreetMap Overpass reply: which elements
 * become landmarks, how each is classified, and the nearest-five selection. The
 * HTTP request (and so the query and its search radius) is not modelled: the
 * decoded reply is an input, and the Haversine distance in metres is a parameter.
 */
module LandmarkFinder {
  import opened Wrappers
  import opened Geo
  import opened LandmarkConfig

  /** The `center` of a way element. */
  datatype Center = Center(lat: Option<real>, lon: Option<real>)

  /**
   * An Overpass element. `kind` is its `type` (absent: the lookup raises and the
   * element is skipped); a missing `tags` object is the empty map.
   */
  datatype Element = Element(
    kind: Option<string>,
    tags: map<string, string>,
    lat: Option<real>,
    lon: Option<real>,
    center: Option<Center>)

  /** The Overpass reply: the request or the JSON decoding failed, or the `elements` list (absent: empty). */
  datatype OverpassReply = Unavailable | Elements(elements: seq<Element>)

  datatype Landmark = Landmark(
    name: string,
    kind: string,
    category: string,
    distanceM: real,
    lat: real,
    lon: real)

  /** The index of the first of `categories[i..]` that is a key of `tags`, if any. */
  function FirstPresent(tags: map<string, string>, categories: seq<string>, i: nat): (r: Option<nat>)
    requires i <= |categories|
    ensures r.None? <==> forall k :: i <= k < |categories| ==> categories[k] !in tags
    ensures r.Some? ==>
      (i <= r.value < |categories| && categories[r.value] in tags &&
       forall k :: i <= k < r.value ==> categories[k] !in tags)
    decreases |categories| - i
  {
    if i == |categories| then None
    else if categories[i] in tags then Some(i)
    else FirstPresent(tags, categories, i + 1)
  }

  /**
   * `_get_landmark_type`: the first of amenity, building, shop, highway, leisure,
   * natural, historic present in the tags, paired with its value; otherwise
   * ("unknown", "other").
   */
  function LandmarkType(tags: map<string, string>): (r: (string, string))
    ensures (forall k :: 0 <= k < |LANDMARK_CATEGORIES| ==> LANDMARK_CATEGORIES[k] !in tags) ==> r == ("unknown", "other")
    ensures forall k ::
      (0 <= k < |LANDMARK_CATEGORIES| && LANDMARK_CATEGORIES[k] in tags &&
       forall k' :: 0 <= k' < k ==> LANDMARK_CATEGORIES[k'] !in tags) ==>
      r == (tags[LANDMARK_CATEGORIES[k]], LANDMARK_CATEGORIES[k])
  {
    match FirstPresent(tags, LANDMARK_CATEGORIES, 0)
    case None => ("unknown", "other")
    case Some(k) => (tags[LANDMARK_CATEGORIES[k]], LANDMARK_CATEGORIES[k])
  }

  /** The position of an element: a node's own lat/lon, a way's center when it has one. */
  function Position(e: Element): Option<(Option<real>, Option<real>)>
  {
    if e.kind == Some("node") then Some((e.lat, e.lon))
    else if e.kind == Some("way") && e.center.Some? then Some((e.center.value.lat, e.center.value.lon))
    else None
  }

  /** The landmark one element yields, or None when the element is skipped. */
  function ParseElement(e: Element, origin: Coord, distanceM: Distance): (r: Option<Landmark>)
    ensures r.Some? <==>
      ("name" in e.tags && e.tags["name"] != "" &&
       Position(e).Some? && Position(e).value.0.Some? && Position(e).value.1.Some?)
    ensures r.Some? ==> r.value.name == e.tags["name"] && (r.value.kind, r.value.category) == LandmarkType(e.tags)
    ensures r.Some? ==> r.value.distanceM == distanceM(origin, Coord(r.value.lat, r.value.lon))
  {
    if "name" !in e.tags || e.tags["name"] == "" then None
    else
      match Position(e)
      case None => None
      case Some((lat, lon)) =>
        if lat.None? || lon.None? then None
        else
          var point := Coord(lat.value, lon.value);
          var (kind, category) := LandmarkType(e.tags);
          Some(Landmark(e.tags["name"], kind, category, distanceM(origin, point), lat.value, lon.value))
  }

  /** The landmarks the elements yield, in element order. */
  function ParseAll(elements: seq<Element>, origin: Coord, distanceM: Distance): (r: seq<Landmark>)
    ensures |r| <= |elements|
    ensures forall k :: 0 <= k < |r| ==> r[k].name != ""
  {
    if elements == [] then []
    else
      var e := elements[|elements| - 1];
      var rest := ParseAll(elements[..|elements| - 1], origin, distanceM);
      match ParseElement(e, origin, distanceM)
      case None => rest
      case Some(l) => rest + [l]
  }

  /** The element the `k`-th parsed landmark came from. */
  function Origin(elements: seq<Element>, origin: Coord, distanceM: Distance, k: nat): (j: nat)
    requires k < |ParseAll(elements, origin, distanceM)|
    ensures j < |elements|
    ensures ParseElement(elements[j], origin, distanceM) == Some(ParseAll(elements, origin, distanceM)[k])
  {
    var prefix := elements[..|elements| - 1];
    var rest := ParseAll(prefix, origin, distanceM);
    var last := ParseElement(elements[|elements| - 1], origin, distanceM);
    assert ParseAll(elements, origin, distanceM) == if last.Some? then rest + [last.value] else rest;
    if k < |rest| then
      var j := Origin(prefix, origin, distanceM, k);
      assert prefix[j] == elements[j];
      j
    else |elements| - 1
  }

  /** The parsed list keeps the input order: later landmarks come from later elements. */
  lemma {:induction false} ParseAllKeepsOrder(elements: seq<Element>, origin: Coord, distanceM: Distance, k1: nat, k2: nat)
    requires k1 < k2 < |ParseAll(elements, origin, distanceM)|
    ensures Origin(elements, origin, distanceM, k1) < Origin(elements, origin, distanceM, k2)
  {
    var prefix := elements[..|elements| - 1];
    var n := |ParseAll(prefix, origin, distanceM)|;
    if k2 < n {
      ParseAllKeepsOrder(prefix, origin, distanceM, k1, k2);
    } else {
      assert Origin(prefix, origin, distanceM, k1) < |prefix|;
    }
  }

  /** Every element that yields a landmark is the origin of one. */
  lemma {:induction false} ParseAllComplete(elements: seq<Element>, origin: Coord, distanceM: Distance, j: nat)
    requires j < |elements| && ParseElement(elements[j], origin, distanceM).Some?
    ensures exists k: nat :: k < |ParseAll(elements, origin, distanceM)| && Origin(elements, origin, distanceM, k) == j
  {
    var prefix := elements[..|elements| - 1];
    var rest := ParseAll(prefix, origin, distanceM);
    var last := ParseElement(elements[|elements| - 1], origin, distanceM);
    assert ParseAll(elements, origin, distanceM) == if last.Some? then rest + [last.value] else rest;
    if j == |elements| - 1 {
      assert Origin(elements, origin, distanceM, |rest|) == j;
    } else {
      assert prefix[j] == elements[j];
      ParseAllComplete(prefix, origin, distanceM, j);
      var k: nat :| k < |rest| && Origin(prefix, origin, distanceM, k) == j;
      assert Origin(elements, origin, distanceM, k) == j;
    }
  }

  /** `_parse_overpass_results`: one pass over the elements, appending each that yields a landmark. */
  method ParseOverpassResults(elements: seq<Element>, origin: Coord, distanceM: Distance) returns (landmarks: seq<Landmark>)
    ensures landmarks == ParseAll(elements, origin, distanceM)
  {
    landmarks := [];
    var i := 0;
    while i < |elements|
      invariant 0 <= i <= |elements|
      invariant landmarks == ParseAll(elements[..i], origin, distanceM)
    {
      assert elements[..i + 1][..i] == elements[..i];
      var parsed := ParseElement(elements[i], origin, distanceM);
      if parsed.Some? {
        landmarks := landmarks + [parsed.value];
      }
      i := i + 1;
    }
    assert elements[..i] == elements;
  }

  predicate SortedByDistance(s: seq<Landmark>)
  {
    forall p, q :: 0 <= p < q < |s| ==> s[p].distanceM <= s[q].distanceM
  }

  /** Exchanges two entries of the array. */
  method Swap(a: array<Landmark>, i: nat, j: nat)
    requires i < a.Length && j < a.Length
    modifies a
    ensures a[..] == old(a[..])[i := old(a[j])][j := old(a[i])]
    ensures multiset(a[..]) == multiset(old(a[..]))
  {
    a[i], a[j] := a[j], a[i];
  }

  /** `landmarks.sort(key=distance_m)`, as an in-place insertion sort. */
  method SortByDistance(a: array<Landmark>)
    modifies a
    ensures SortedByDistance(a[..])
    ensures multiset(a[..]) == multiset(old(a[..]))
  {
    var i := 0;
    while i < a.Length
      invariant 0 <= i <= a.Length
      invariant forall p, q :: 0 <= p < q < i ==> a[p].distanceM <= a[q].distanceM
      invariant multiset(a[..]) == multiset(old(a[..]))
    {
      var j := i;
      while j > 0 && a[j - 1].distanceM > a[j].distanceM
        invariant 0 <= j <= i
        invariant forall p, q :: 0 <= p < q <= i && q != j ==> a[p].distanceM <= a[q].distanceM
        invariant 0 < j < i ==> a[j - 1].distanceM <= a[j + 1].distanceM
        invariant multiset(a[..]) == multiset(old(a[..]))
      {
        Swap(a, j - 1, j);
        j := j - 1;
      }
      i := i + 1;
    }
  }

  function MinNat(a: nat, b: nat): nat { if a <= b then a else b }

  /** The landmarks parsed from a reply, before sorting. */
  function ParsedFrom(reply: OverpassReply, origin: Coord, distanceM: Distance): seq<Landmark>
  {
    match reply
    case Unavailable => []
    case Elements(es) => ParseAll(es, origin, distanceM)
  }

  /**
   * `find_nearby_landmarks`: parse, sort by distance, keep the first five. Any
   * request or decoding failure gives the empty list.
   */
  method FindNearbyLandmarks(origin: Coord, reply: OverpassReply, distanceM: Distance) returns (top: seq<Landmark>)
    ensures reply.Unavailable? ==> top == []
    ensures |top| == MinNat(MAX_LANDMARKS_RETURN, |ParsedFrom(reply, origin, distanceM)|)
    ensures SortedByDistance(top)
    ensures multiset(top) <= multiset(ParsedFrom(reply, origin, distanceM))
    ensures forall y, x :: y in top && x in multiset(ParsedFrom(reply, origin, distanceM)) - multiset(top) ==>
      y.distanceM <= x.distanceM
  {
    if reply.Unavailable? {
      return [];
    }
    var landmarks := ParseOverpassResults(reply.elements, origin, distanceM);
    var a := new Landmark[|landmarks|](i requires 0 <= i < |landmarks| => landmarks[i]);
    assert a[..] == landmarks;
    SortByDistance(a);
    var n := MinNat(MAX_LANDMARKS_RETURN, a.Length);
    top := a[..n];
    NearestAreKept(a[..], n);
  }

  /** In a list sorted by distance, the first `n` are no farther than any of the rest. */
  lemma NearestAreKept(s: seq<Landmark>, n: nat)
    requires n <= |s|
    requires SortedByDistance(s)
    ensures multiset(s[..n]) <= multiset(s)
    ensures forall y, x :: y in s[..n] && x in multiset(s) - multiset(s[..n]) ==> y.distanceM <= x.distanceM
  {
    assert s == s[..n] + s[n..];
    assert multiset(s) == multiset(s[..n]) + multiset(s[n..]);
    assert multiset(s) - multiset(s[..n]) == multiset(s[n..]);
    forall y, x | y in s[..n] && x in multiset(s[n..])
      ensures y.distanceM <= x.distanceM
    {
      var p :| 0 <= p < n && s[p] == y;
      var q :| 0 <= q < |s| - n && s[n..][q] == x;
      assert s[n + q] == x;
    }
  }

  /** `has_landmarks_nearby`: at least `minLandmarks` (by default 1) landmarks were found. */
  method HasLandmarksNearby(origin: Coord, reply: OverpassReply, distanceM: Distance, minLandmarks: int) returns (b: bool)
    ensures b <==> MinNat(MAX_LANDMARKS_RETURN, |ParsedFrom(reply, origin, distanceM)|) >= minLandmarks
  {
    var landmarks := FindNearbyLandmarks(origin, reply, distanceM);
    b := |landmarks| >= minLandmarks;
  }
}
