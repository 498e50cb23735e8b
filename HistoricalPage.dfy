/**
 * The stand-alone historical page: one vessel's fetched records, filtered to
 * those with coordinates, stably sorted by `created_date`, and drawn as a
 * polyline with start and end markers and direction arrows.
 */
module HistoricalPage {
  import opened VesselRecords

  predicate SortedByDate(s: seq<Sample>) {
    forall i, j :: 0 <= i < j < |s| ==> s[i].createdDate <= s[j].createdDate
  }

  /**
   * Puts `x` before the first record not older than it; records passed over are
   * strictly older, so `x` keeps its place among records of its own date.
   */
  function InsertByDate(x: Sample, s: seq<Sample>): (r: seq<Sample>)
    ensures multiset(r) == multiset(s) + multiset{x}
  {
    if s == [] || x.createdDate <= s[0].createdDate then [x] + s
    else
      assert s == [s[0]] + s[1..];
      [s[0]] + InsertByDate(x, s[1..])
  }

  /** Inserting into a date-ordered sequence keeps it date-ordered. */
  lemma {:induction false} InsertSorted(x: Sample, s: seq<Sample>)
    requires SortedByDate(s)
    ensures SortedByDate(InsertByDate(x, s))
  {
    if s == [] || x.createdDate <= s[0].createdDate {
      assert forall j :: 0 <= j < |s| ==> s[0].createdDate <= s[j].createdDate;
    } else {
      var rest := InsertByDate(x, s[1..]);
      InsertSorted(x, s[1..]);
      forall k | 0 <= k < |rest| ensures s[0].createdDate <= rest[k].createdDate {
        assert rest[k] in multiset(rest);
        assert rest[k] == x || rest[k] in multiset(s[1..]);
      }
    }
  }

  /**
   * `.sort((a, b) => new Date(a.created_date) - new Date(b.created_date))`,
   * the stable sort ECMAScript has required of `Array.prototype.sort` since
   * its 2019 edition.
   */
  function SortByDate(s: seq<Sample>): (r: seq<Sample>)
    ensures |r| == |s|
    ensures multiset(r) == multiset(s)
    ensures SortedByDate(r)
  {
    if s == [] then []
    else
      assert s == [s[0]] + s[1..];
      var r := InsertByDate(s[0], SortByDate(s[1..]));
      InsertSorted(s[0], SortByDate(s[1..]));
      assert |r| == |multiset(r)|;
      r
  }

  /** `[y]` when `y` has date `t`, otherwise empty. */
  function OfDate(y: Sample, t: int): seq<Sample> {
    if y.createdDate == t then [y] else []
  }

  /** The records of one date, in order. */
  function WithDate(s: seq<Sample>, t: int): seq<Sample> {
    if s == [] then [] else OfDate(s[0], t) + WithDate(s[1..], t)
  }

  /** Inserting `x` keeps it ahead of every record of its own date. */
  lemma {:induction false} InsertKeepsTies(x: Sample, s: seq<Sample>, t: int)
    ensures WithDate(InsertByDate(x, s), t) == WithDate([x] + s, t)
  {
    if s != [] && x.createdDate > s[0].createdDate {
      var rest := InsertByDate(x, s[1..]);
      var r := [s[0]] + rest;
      assert InsertByDate(x, s) == r;
      InsertKeepsTies(x, s[1..], t);
      assert r[0] == s[0] && r[1..] == rest;
      assert WithDate(r, t) == OfDate(s[0], t) + WithDate(rest, t);
      assert ([x] + s[1..])[0] == x && ([x] + s[1..])[1..] == s[1..];
      assert WithDate(rest, t) == OfDate(x, t) + WithDate(s[1..], t);
      assert ([x] + s)[0] == x && ([x] + s)[1..] == s;
      assert WithDate([x] + s, t) == OfDate(x, t) + (OfDate(s[0], t) + WithDate(s[1..], t));
      assert OfDate(s[0], t) == [] || OfDate(x, t) == [];
    }
  }

  /** The sort is stable: records of equal date keep their input order. */
  lemma {:induction false} SortIsStable(s: seq<Sample>, t: int)
    ensures WithDate(SortByDate(s), t) == WithDate(s, t)
  {
    if s != [] {
      SortIsStable(s[1..], t);
      InsertKeepsTies(s[0], SortByDate(s[1..]), t);
      assert ([s[0]] + SortByDate(s[1..]))[1..] == SortByDate(s[1..]);
    }
  }

  /** `points`: the fetched records with coordinates, oldest first. */
  function Positions(p: Payload): seq<Sample> {
    SortByDate(KeepWithCoords(RecordsOf(p)))
  }

  /**
   * Every position has both coordinates, every fetched record with both is a
   * position, the positions are ordered by date, they are exactly the filtered
   * records (as a multiset), and records of one date stay in fetch order.
   */
  lemma PositionsSpec(p: Payload)
    ensures forall i :: 0 <= i < |Positions(p)| ==> HasCoords(Positions(p)[i])
    ensures forall x :: x in RecordsOf(p) && HasCoords(x) ==> x in Positions(p)
    ensures SortedByDate(Positions(p))
    ensures multiset(Positions(p)) == multiset(KeepWithCoords(RecordsOf(p)))
    ensures forall t :: WithDate(Positions(p), t) == WithDate(KeepWithCoords(RecordsOf(p)), t)
  {
    var kept := KeepWithCoords(RecordsOf(p));
    var pos := Positions(p);
    forall i | 0 <= i < |pos| ensures HasCoords(pos[i]) {
      assert pos[i] in multiset(kept);
    }
    forall x | x in RecordsOf(p) && HasCoords(x) ensures x in pos {
      assert x in multiset(pos);
    }
    forall t ensures WithDate(pos, t) == WithDate(kept, t) {
      SortIsStable(kept, t);
    }
  }

  /** What the page draws for its positions. */
  datatype TrackView = TrackView(
    path: seq<Point>,
    start: Option<Sample>,
    end: Option<Sample>,
    center: Point,
    drawsTrack: bool,
    drawsArrows: bool)

  /**
   * `path`, `start`, `end`, the map centre `path[0] || [37.7749, -122.4194]`,
   * the `path.length > 0` guard on the polyline and markers, and the
   * `path.length < 2` early return of the arrow decorator.
   */
  function ViewOf(positions: seq<Sample>): (v: TrackView)
    ensures |v.path| == |positions|
    ensures forall i :: 0 <= i < |positions| ==> v.path[i] == PointOf(positions[i])
    ensures v.drawsTrack <==> positions != []
    ensures v.drawsArrows <==> |positions| >= 2
    ensures v.start.Some? <==> v.drawsTrack
    ensures v.end.Some? <==> v.drawsTrack
    ensures v.drawsTrack ==> v.start == Some(positions[0]) && v.end == Some(positions[|positions| - 1])
    ensures |positions| == 1 ==> v.start == v.end
    ensures v.center == if v.drawsTrack then PointOf(positions[0]) else DefaultCenter
  {
    var path := PointsOf(positions);
    var start := At(positions, 0);
    var end := At(positions, |positions| - 1);
    var center := match At(path, 0) case Some(p) => p case None => DefaultCenter;
    var drawsTrack := |path| > 0;
    TrackView(path, start, end, center, drawsTrack, drawsTrack && |path| >= 2)
  }

  /** On date-ordered positions the start marker is the oldest and the end marker the newest. */
  lemma EndpointsBracketTrack(positions: seq<Sample>)
    requires SortedByDate(positions)
    ensures var v := ViewOf(positions);
      v.drawsTrack ==> forall i :: 0 <= i < |positions| ==>
        v.start.value.createdDate <= positions[i].createdDate <= v.end.value.createdDate
  {
  }
}
