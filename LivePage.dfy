/**
 * The stand-alone live page: the latest snapshot of every vessel, drawn as one
 * circle marker per vessel that has coordinates, on a map centred on the first
 * such vessel.
 */
module LivePage {
  import opened VesselRecords

  /** What the page draws for one `/live` response. */
  datatype LiveView = LiveView(validVessels: seq<Sample>, markers: seq<Point>, center: Point)

  /**
   * `setVessels(data.data || [])`, then `validVessels`, one `CircleMarker` per
   * valid vessel, and `center`.
   */
  function LiveViewOf(p: Payload): (v: LiveView)
    ensures v.validVessels == KeepWithCoords(RecordsOf(p))
    ensures |v.markers| == |v.validVessels|
    ensures forall i :: 0 <= i < |v.markers| ==> v.markers[i] == PointOf(v.validVessels[i])
    ensures v.validVessels != [] ==> v.center == v.markers[0]
    ensures v.validVessels == [] ==> v.center == DefaultCenter
  {
    var vessels := RecordsOf(p);
    var valid := KeepWithCoords(vessels);
    var center := if |valid| > 0 then Point(valid[0].latitude, valid[0].longitude) else DefaultCenter;
    LiveView(valid, PointsOf(valid), center)
  }

  /** A response without a `data` field draws no marker and the default centre. */
  lemma MissingDataDrawsNothing(p: Payload)
    requires p.data.None?
    ensures LiveViewOf(p).markers == [] && LiveViewOf(p).center == DefaultCenter
  {
  }

  /**
   * The map is centred on the first vessel of the response that has both
   * coordinates, and on the default centre when none has.
   */
  lemma CenterIsFirstVesselWithCoords(p: Payload)
    ensures var vessels := RecordsOf(p);
      forall i :: 0 <= i < |vessels| && HasCoords(vessels[i])
        && (forall j :: 0 <= j < i ==> !HasCoords(vessels[j]))
        ==> LiveViewOf(p).center == PointOf(vessels[i])
    ensures var vessels := RecordsOf(p);
      (forall i :: 0 <= i < |vessels| ==> !HasCoords(vessels[i]))
        ==> LiveViewOf(p).center == DefaultCenter
  {
    var vessels := RecordsOf(p);
    forall i | 0 <= i < |vessels| && HasCoords(vessels[i])
      && (forall j :: 0 <= j < i ==> !HasCoords(vessels[j]))
      ensures LiveViewOf(p).center == PointOf(vessels[i])
    {
      KeepWithCoordsFirst(vessels, i);
    }
    if forall i :: 0 <= i < |vessels| ==> !HasCoords(vessels[i]) {
      KeepWithCoordsNone(vessels);
    }
  }

  /** Every vessel with coordinates, and no other, gets a marker, in feed order. */
  lemma OneMarkerPerValidVessel(p: Payload)
    ensures var v := LiveViewOf(p);
      && IsSubsequence(v.validVessels, RecordsOf(p))
      && (forall x :: x in v.validVessels <==> x in RecordsOf(p) && HasCoords(x))
      && |v.markers| == |v.validVessels|
  {
    KeepWithCoordsIsSubsequence(RecordsOf(p));
  }
}
