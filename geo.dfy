/** GeoDjango points and the "latitude,longitude" text the admin, the
    import widget and the lookup endpoint all read. */
module Geo {
  import opened Common
  import opened Text

  /** The spatial reference every point of the system is created with. */
  const WGS84: int := 4326

  /** `Point(x, y, srid)`: `x` is the longitude, `y` the latitude. */
  datatype Point = Point(x: real, y: real, srid: int)

  /** `lat, lng = text.split(','); Point(float(lng), float(lat), srid=4326)`.
      `None` is the `ValueError` raised when the text does not split into
      exactly two pieces or a piece is not a number; `float` itself is the
      parameter `parseFloat`. */
  function ParseLatLng(text: string, parseFloat: string -> Option<real>): (r: Option<Point>)
    ensures r.Some? ==> r.value.srid == WGS84
  {
    var parts := Split(text, ',');
    if |parts| != 2 then None
    else
      match (parseFloat(parts[0]), parseFloat(parts[1]))
      case (Some(lat), Some(lng)) => Some(Point(lng, lat, WGS84))
      case _ => None
  }

  /** Text with more or fewer than one comma is always rejected. */
  lemma ParseLatLngNeedsOneComma(text: string, parseFloat: string -> Option<real>)
    requires Count(text, ',') != 1
    ensures ParseLatLng(text, parseFloat) == None
  {
    SplitLength(text, ',');
  }

  /** For `lat + "," + lng` with comma-free pieces: a point exactly when both
      pieces are numbers, the first number being the latitude (`y`) and the
      second the longitude (`x`). */
  lemma ParseLatLngPair(lat: string, lng: string, parseFloat: string -> Option<real>)
    requires ',' !in lat && ',' !in lng
    ensures ParseLatLng(lat + "," + lng, parseFloat)
         == if parseFloat(lat).Some? && parseFloat(lng).Some?
            then Some(Point(parseFloat(lng).value, parseFloat(lat).value, WGS84))
            else None
  {
    SplitPair(lat, lng, ',');
  }

  /** Every accepted text is one comma between two numbers. */
  lemma ParseLatLngAccepted(text: string, parseFloat: string -> Option<real>)
    requires ParseLatLng(text, parseFloat).Some?
    ensures Count(text, ',') == 1
    ensures var parts := Split(text, ',');
            |parts| == 2 && text == parts[0] + "," + parts[1]
            && parseFloat(parts[0]) == Some(ParseLatLng(text, parseFloat).value.y)
            && parseFloat(parts[1]) == Some(ParseLatLng(text, parseFloat).value.x)
  {
    SplitLength(text, ',');
    JoinSplit(text, ',');
    var parts := Split(text, ',');
    assert Join(parts, ",") == parts[0] + "," + Join(parts[1..], ",");
  }
}
