/**
 * Vessel position records as the tracker's pages receive them from the
 * `/live` and `/historical` endpoints, and the coordinate filter every page
 * applies before it draws anything.
 */
module VesselRecords {

  datatype Option<T> = None | Some(value: T)

  /** A numeric field of a JSON record: `None` is a missing or null field. */
  type Coord = Option<real>

  /** JavaScript truthiness of a numeric field: present and non-zero. */
  predicate Truthy(c: Coord) {
    c.Some? && c.value != 0.0
  }

  /** One row of the vessel table, as far as the pages read it. */
  datatype Sample = Sample(
    mmsi: int,
    name: Option<string>,
    latitude: Coord,
    longitude: Coord,
    speed: real,
    createdDate: int)

  /** A response body; `data` is absent when the backend answers `{"error": ...}`. */
  datatype Payload = Payload(data: Option<seq<Sample>>)

  /** A map position `[latitude, longitude]`; the fields are passed on unchanged. */
  datatype Point = Point(lat: Coord, lng: Coord)

  /** The map centre both stand-alone pages fall back to when they have no point. */
  const DefaultCenter := Point(Some(37.7749), Some(-122.4194))

  /** `d.latitude && d.longitude` */
  predicate HasCoords(s: Sample) {
    Truthy(s.latitude) && Truthy(s.longitude)
  }

  function PointOf(s: Sample): Point {
    Point(s.latitude, s.longitude)
  }

  /** `data.data || []` */
  function RecordsOf(p: Payload): (r: seq<Sample>)
    ensures p.data.Some? ==> r == p.data.value
    ensures p.data.None? ==> r == []
  {
    if p.data.Some? then p.data.value else []
  }

  /** JavaScript indexing `s[i]`: `undefined` (here `None`) outside the bounds. */
  function At<T>(s: seq<T>, i: int): (r: Option<T>)
    ensures r.Some? <==> 0 <= i < |s|
    ensures r.Some? ==> r.value == s[i]
  {
    if 0 <= i < |s| then Some(s[i]) else None
  }

  /** `s.filter(d => d.latitude && d.longitude)` */
  function KeepWithCoords(s: seq<Sample>): (r: seq<Sample>)
    ensures |r| <= |s|
    ensures forall i :: 0 <= i < |r| ==> HasCoords(r[i])
    ensures forall x :: x in r <==> x in s && HasCoords(x)
    ensures forall x :: HasCoords(x) ==> multiset(r)[x] == multiset(s)[x]
  {
    if s == [] then []
    else
      var rest := KeepWithCoords(s[1..]);
      assert s == [s[0]] + s[1..];
      if HasCoords(s[0]) then [s[0]] + rest else rest
  }

  /** `r` is `s` with some elements dropped and the others kept in order. */
  ghost predicate IsSubsequence<T>(r: seq<T>, s: seq<T>)
    decreases |s|
  {
    r == [] || (s != [] && ((r[0] == s[0] && IsSubsequence(r[1..], s[1..])) || IsSubsequence(r, s[1..])))
  }

  /** The filter keeps the order of the records it keeps. */
  lemma {:induction false} KeepWithCoordsIsSubsequence(s: seq<Sample>)
    ensures IsSubsequence(KeepWithCoords(s), s)
  {
    if s != [] {
      KeepWithCoordsIsSubsequence(s[1..]);
      var r := KeepWithCoords(s);
      if HasCoords(s[0]) {
        assert r[0] == s[0] && r[1..] == KeepWithCoords(s[1..]);
      }
    }
  }

  /** Filtering a concatenation filters each part: the filter never reorders. */
  lemma {:induction false} KeepWithCoordsAppend(a: seq<Sample>, b: seq<Sample>)
    ensures KeepWithCoords(a + b) == KeepWithCoords(a) + KeepWithCoords(b)
  {
    if a == [] {
      assert a + b == b;
    } else {
      assert (a + b)[0] == a[0];
      assert (a + b)[1..] == a[1..] + b;
      KeepWithCoordsAppend(a[1..], b);
    }
  }

  /** The first record with coordinates heads the filtered sequence. */
  lemma {:induction false} KeepWithCoordsFirst(s: seq<Sample>, i: nat)
    requires i < |s| && HasCoords(s[i])
    requires forall j :: 0 <= j < i ==> !HasCoords(s[j])
    ensures KeepWithCoords(s) != [] && KeepWithCoords(s)[0] == s[i]
  {
    if i > 0 {
      KeepWithCoordsFirst(s[1..], i - 1);
    }
  }

  /** With no record having coordinates, nothing is kept. */
  lemma {:induction false} KeepWithCoordsNone(s: seq<Sample>)
    requires forall i :: 0 <= i < |s| ==> !HasCoords(s[i])
    ensures KeepWithCoords(s) == []
  {
    if s != [] {
      KeepWithCoordsNone(s[1..]);
    }
  }

  /** `s.map(p => [p.latitude, p.longitude])`: one point per record, in order. */
  function PointsOf(s: seq<Sample>): (r: seq<Point>)
    ensures |r| == |s|
    ensures forall i :: 0 <= i < |s| ==> r[i] == PointOf(s[i])
  {
    if s == [] then [] else [PointOf(s[0])] + PointsOf(s[1..])
  }
}
