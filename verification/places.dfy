/** The place-search side shared by both front-ends: the shapes of the
    provider's responses as the source reads them, the search query, the cap
    on candidates, and the shaping of one place's details into a doctor
    record (app.py:150-168 and 189-216, web/app.py:86-115). Coordinates are
    carried as opaque values and never computed with. */
module Places {
  import opened Wrappers
  import opened Features

  type Coord = real

  /** The `location` dictionary of a geometry; both keys may be missing. */
  datatype LatLng = LatLng(lat: Option<Coord>, lng: Option<Coord>)

  /** The `{}` that stands in for a missing location. */
  const EmptyLocation := LatLng(None, None)

  datatype Geometry = Geometry(location: Option<LatLng>)

  datatype OpeningHours = OpeningHours(openNow: Option<bool>)

  /** The `result` record of a details lookup; every field may be missing. */
  datatype Details = Details(
    name: Option<string>,
    address: Option<string>,
    phone: Option<string>,
    website: Option<string>,
    rating: Option<real>,
    openingHours: Option<OpeningHours>,
    geometry: Option<Geometry>)

  /** The `{}` that stands in for a missing `result`. */
  const NoDetails := Details(None, None, None, None, None, None, None)

  /** One text-search result; `place_id` may be missing. */
  datatype Candidate = Candidate(placeId: Option<string>)

  datatype SearchResponse = SearchResponse(results: Option<seq<Candidate>>)

  datatype DetailsResponse = DetailsResponse(result: Option<Details>)

  /** What a step can raise: a dictionary lookup on a missing key, or a
      failure reported by the classifier or the maps client. */
  datatype Exception = KeyError(key: string) | ServiceError(message: string)

  /** `str(e)`: Python renders a key error as the quoted key. */
  function Message(e: Exception): (m: string)
    ensures e.KeyError? ==>
      |m| == |e.key| + 2 && m[0] == '\'' && m[1..|m| - 1] == e.key && m[|m| - 1] == '\''
    ensures e.ServiceError? ==> m == e.message
  {
    match e
    case KeyError(k) => "'" + k + "'"
    case ServiceError(m) => m
  }

  /** The collaborators, as functions: the trained model on one encoded row,
      the text search on a query, the details lookup on a place id. */
  type Classifier = seq<Bit> -> Result<string, Exception>
  type TextSearch = string -> Result<SearchResponse, Exception>
  type PlaceLookup = string -> Result<DetailsResponse, Exception>

  /** The two front-ends, which differ in small details of the doctor record. */
  datatype Frontend = Streamlit | Flask

  // ---------------------------------------------------------------- search

  const QueryJoin := " in "

  /** The text-search query `f"{specialist} in {location}"`. */
  function SearchQuery(specialist: string, location: string): (q: string)
    ensures |q| == |specialist| + |QueryJoin| + |location|
    ensures q[..|specialist|] == specialist
    ensures q[|specialist|..|specialist| + |QueryJoin|] == QueryJoin
    ensures q[|specialist| + |QueryJoin|..] == location
  {
    specialist + QueryJoin + location
  }

  /** For a given specialist the query determines the location. */
  lemma SearchQueryDeterminesLocation(specialist: string, l1: string, l2: string)
    requires SearchQuery(specialist, l1) == SearchQuery(specialist, l2)
    ensures l1 == l2
  {
    var n := |specialist| + |QueryJoin|;
    assert l1 == SearchQuery(specialist, l1)[n..];
  }

  const MaxDoctors := 5

  function Min(a: int, b: int): int {
    if a <= b then a else b
  }

  /** `places_result.get('results', [])[:5]`: the provider's first results, in
      its order, at most five of them. */
  function DoctorsList(response: SearchResponse): (doctors: seq<Candidate>)
    ensures response.results.None? ==> doctors == []
    ensures response.results.Some? ==>
      |doctors| == Min(MaxDoctors, |response.results.value|) && doctors <= response.results.value
  {
    match response.results
    case None => []
    case Some(results) => if |results| <= MaxDoctors then results else results[..MaxDoctors]
  }

  /** `place_details.get('result', {})`. */
  function DetailsOf(response: DetailsResponse): Details {
    response.result.GetOr(NoDetails)
  }

  // ---------------------------------------------------------- open status

  datatype OpenStatus = StatusUnknown | OpenNow | Closed

  /** Unknown without opening hours; otherwise open exactly when `open_now` is
      true, a missing `open_now` reading as false. */
  function OpenStatusOf(d: Details): (s: OpenStatus)
    ensures s == StatusUnknown <==> d.openingHours.None?
    ensures s == OpenNow <==> d.openingHours == Some(OpeningHours(Some(true)))
    ensures s == Closed <==> d.openingHours.Some? && d.openingHours.value.openNow != Some(true)
  {
    match d.openingHours
    case None => StatusUnknown
    case Some(hours) => if hours.openNow.GetOr(false) then OpenNow else Closed
  }

  /** The status as the page and the route print it. */
  function StatusText(s: OpenStatus): (text: string)
    ensures text == "Status unknown" <==> s == StatusUnknown
    ensures text == "\U{1F7E2} Open now" <==> s == OpenNow
    ensures text == "\U{1F534} Closed" <==> s == Closed
  {
    match s
    case StatusUnknown => "Status unknown"
    case OpenNow => "\U{1F7E2} Open now"
    case Closed => "\U{1F534} Closed"
  }

  /** The three status texts are told apart, so the text still carries the status. */
  lemma StatusTextDistinguishes(s1: OpenStatus, s2: OpenStatus)
    requires StatusText(s1) == StatusText(s2)
    ensures s1 == s2
  {
  }

  // -------------------------------------------------------------- map URL

  /** `name.replace(' ', '+')`. */
  function ReplaceSpaces(s: string): (r: string)
    ensures |r| == |s|
    ensures forall i :: 0 <= i < |s| ==> r[i] == (if s[i] == ' ' then '+' else s[i])
  {
    if |s| == 0 then "" else [if s[0] == ' ' then '+' else s[0]] + ReplaceSpaces(s[1..])
  }

  /** The replacement leaves no space behind and touches nothing but spaces. */
  lemma ReplaceSpacesOnlySpaces(s: string)
    ensures ' ' !in ReplaceSpaces(s)
    ensures forall i :: 0 <= i < |s| && s[i] != ' ' ==> ReplaceSpaces(s)[i] == s[i]
    ensures ' ' !in s ==> ReplaceSpaces(s) == s
  {
    var r := ReplaceSpaces(s);
    assert forall i :: 0 <= i < |r| ==> r[i] != ' ';
  }

  const PlaceIdParameter := "&query_place_id="

  /** The link prefix: a malformed prefix in app.py:216, a search link in web/app.py:113. */
  function MapsPrefix(f: Frontend): string {
    match f
    case Streamlit => "http://googleusercontent.com/maps/google.com/4"
    case Flask => "https://www.google.com/maps/search/?api=1&query="
  }

  /** The name used in the link when details carry none: app.py reuses the
      displayed 'N/A', web/app.py uses the empty string. */
  function UrlNameDefault(f: Frontend): string {
    match f
    case Streamlit => "N/A"
    case Flask => ""
  }

  /** The map link: prefix, the name with spaces turned into '+', then the
      place id parameter. */
  function MapsUrl(f: Frontend, d: Details, placeId: string): (url: string)
    ensures var name, p := d.name.GetOr(UrlNameDefault(f)), |MapsPrefix(f)|;
      && |url| == p + |name| + |PlaceIdParameter| + |placeId|
      && url[..p] == MapsPrefix(f)
      && (forall i :: 0 <= i < |name| ==> url[p + i] == (if name[i] == ' ' then '+' else name[i]))
      && url[p + |name|..] == PlaceIdParameter + placeId
  {
    var prefix, encoded, suffix := MapsPrefix(f), ReplaceSpaces(d.name.GetOr(UrlNameDefault(f))), PlaceIdParameter + placeId;
    var url := prefix + encoded + suffix;
    assert url == prefix + (encoded + suffix);
    assert url[..|prefix|] == prefix;
    assert url[|prefix|..] == encoded + suffix;
    assert url[|prefix| + |encoded|..] == suffix;
    assert forall i :: 0 <= i < |encoded| ==> url[|prefix| + i] == encoded[i];
    url
  }

  // -------------------------------------------------------- doctor record

  /** A rating as shown: the provider's score, or the text 'N/A'. */
  datatype Rating = Stars(score: real) | RatingNA

  /** One doctor as a front-end shows it. `location` is filled in only by
      web/app.py, whose record carries it. */
  datatype DoctorRecord = DoctorRecord(
    name: string,
    address: string,
    phone: string,
    website: Option<string>,
    rating: Rating,
    openNowStatus: string,
    mapsUrl: string,
    location: Option<LatLng>)

  const NameDefault := "N/A"
  const AddressDefault := "Address not available"
  const PhoneDefault := "Phone not available"

  function RatingOf(d: Details): Rating {
    match d.rating
    case Some(score) => Stars(score)
    case None => RatingNA
  }

  /** `details.get('geometry', {}).get('location', {})`. */
  function LocationOf(d: Details): (loc: LatLng)
    ensures d.geometry.Some? && d.geometry.value.location.Some? ==> loc == d.geometry.value.location.value
    ensures d.geometry.None? || d.geometry.value.location.None? ==> loc == EmptyLocation
  {
    match d.geometry
    case None => EmptyLocation
    case Some(g) => g.location.GetOr(EmptyLocation)
  }

  /** The record for one place: each present field is shown as given, each
      missing one by its default. */
  function ShapeDoctor(f: Frontend, d: Details, placeId: string): (r: DoctorRecord)
    ensures d.name.Some? ==> r.name == d.name.value
    ensures d.name.None? ==> r.name == NameDefault
    ensures d.address.Some? ==> r.address == d.address.value
    ensures d.address.None? ==> r.address == AddressDefault
    ensures d.phone.Some? ==> r.phone == d.phone.value
    ensures d.phone.None? ==> r.phone == PhoneDefault
    ensures r.website == d.website
    ensures d.rating.Some? ==> r.rating == Stars(d.rating.value)
    ensures d.rating.None? ==> r.rating == RatingNA
    ensures r.openNowStatus == StatusText(OpenStatusOf(d))
    ensures r.mapsUrl == MapsUrl(f, d, placeId)
    ensures f == Flask ==> r.location == Some(LocationOf(d))
    ensures f == Streamlit ==> r.location == None
  {
    DoctorRecord(
      d.name.GetOr(NameDefault),
      d.address.GetOr(AddressDefault),
      d.phone.GetOr(PhoneDefault),
      d.website,
      RatingOf(d),
      StatusText(OpenStatusOf(d)),
      MapsUrl(f, d, placeId),
      if f == Flask then Some(LocationOf(d)) else None)
  }

  /** A place with no details at all is still shown, entirely by defaults. */
  lemma ShapeEmptyDetails(f: Frontend, placeId: string)
    ensures var r := ShapeDoctor(f, NoDetails, placeId);
      && r.name == NameDefault && r.address == AddressDefault && r.phone == PhoneDefault
      && r.website == None && r.rating == RatingNA && r.openNowStatus == "Status unknown"
      && r.mapsUrl == MapsPrefix(f) + UrlNameDefault(f) + PlaceIdParameter + placeId
      && (f == Flask ==> r.location == Some(EmptyLocation))
  {
    ReplaceSpacesOnlySpaces(UrlNameDefault(f));
  }

  /** With the place's name present, the two front-ends' links carry the same text after their prefixes. */
  lemma MapsUrlsAgree(d: Details, placeId: string)
    requires d.name.Some?
    ensures MapsUrl(Streamlit, d, placeId)[|MapsPrefix(Streamlit)|..] == MapsUrl(Flask, d, placeId)[|MapsPrefix(Flask)|..]
  {
    var tail := ReplaceSpaces(d.name.value) + (PlaceIdParameter + placeId);
    assert MapsUrl(Streamlit, d, placeId) == MapsPrefix(Streamlit) + tail;
    assert MapsUrl(Flask, d, placeId) == MapsPrefix(Flask) + tail;
  }

  /** The two front-ends show the same fields for the same place and differ
      only in the map link and the location. */
  lemma FrontendsAgree(d: Details, placeId: string)
    ensures var s, w := ShapeDoctor(Streamlit, d, placeId), ShapeDoctor(Flask, d, placeId);
      && s.name == w.name && s.address == w.address && s.phone == w.phone
      && s.website == w.website && s.rating == w.rating && s.openNowStatus == w.openNowStatus
      && (d.name.Some? ==> s.mapsUrl[|MapsPrefix(Streamlit)|..] == w.mapsUrl[|MapsPrefix(Flask)|..])
  {
    if d.name.Some? {
      MapsUrlsAgree(d, placeId);
    }
  }

  // ------------------------------------------------------------ map points

  /** A point on the results map (app.py only). */
  datatype MapPoint = MapPoint(name: string, lat: Coord, lon: Coord)

  /** The map point of one place's details: none without geometry; otherwise
      the geometry must hold a location with both coordinates, or a key
      error is raised, for the first missing key in evaluation order. */
  function PointOf(d: Details): (r: Result<Option<MapPoint>, Exception>)
    ensures d.geometry.None? ==> r == Ok(None)
    ensures r.Ok? && r.value.Some? ==>
      && d.geometry.Some? && d.geometry.value.location.Some?
      && var loc := d.geometry.value.location.value;
      && loc.lat.Some? && loc.lng.Some?
      && r.value.value == MapPoint(d.name.GetOr(NameDefault), loc.lat.value, loc.lng.value)
    ensures r.Ok? <==> (d.geometry.None? || (d.geometry.value.location.Some?
      && d.geometry.value.location.value.lat.Some? && d.geometry.value.location.value.lng.Some?))
    ensures r.Err? ==> d.geometry.Some? && r.error == KeyError(
      if d.geometry.value.location.None? then "location"
      else if d.geometry.value.location.value.lat.None? then "lat"
      else "lng")
  {
    match d.geometry
    case None => Ok(None)
    case Some(g) =>
      match g.location
      case None => Err(KeyError("location"))
      case Some(loc) =>
        if loc.lat.None? then Err(KeyError("lat"))
        else if loc.lng.None? then Err(KeyError("lng"))
        else Ok(Some(MapPoint(d.name.GetOr(NameDefault), loc.lat.value, loc.lng.value)))
  }

  /** Whether a place's details carry a geometry the map can use. */
  predicate HasGeometry(d: Details) {
    d.geometry.Some?
  }

  /** The points of a sequence of details, in order: one per details record
      whose point extraction yields one. */
  function PointsOf(ds: seq<Details>): (points: seq<MapPoint>)
    ensures |points| <= |ds|
  {
    if |ds| == 0 then []
    else
      (match PointOf(ds[0]) case Ok(Some(p)) => [p] case _ => []) + PointsOf(ds[1..])
  }

  /** Number of details records with a geometry. */
  function CountGeometry(ds: seq<Details>): nat {
    if |ds| == 0 then 0 else (if HasGeometry(ds[0]) then 1 else 0) + CountGeometry(ds[1..])
  }

  /** When every extraction succeeds there is exactly one point per details
      record with a geometry, and in particular no more points than doctors. */
  lemma {:induction false} PointsCountGeometry(ds: seq<Details>)
    requires forall i :: 0 <= i < |ds| ==> PointOf(ds[i]).Ok?
    ensures |PointsOf(ds)| == CountGeometry(ds)
  {
    if |ds| > 0 {
      assert forall i :: 0 <= i < |ds[1..]| ==> ds[1..][i] == ds[i + 1];
      PointsCountGeometry(ds[1..]);
    }
  }

  /** Points follow the order of the details: the points of a concatenation
      are the points of each part, one after the other. */
  lemma {:induction false} PointsOfAppend(a: seq<Details>, b: seq<Details>)
    ensures PointsOf(a + b) == PointsOf(a) + PointsOf(b)
  {
    if |a| == 0 {
      assert a + b == b;
    } else {
      assert (a + b)[1..] == a[1..] + b;
      PointsOfAppend(a[1..], b);
    }
  }
}
