/**
 * The combined map page: the live vessel list with its search box, and the
 * historical playback of one vessel's track (cursor, play/pause timer tick,
 * slider, visible prefix and speed-coloured segments).
 */
module MapPage {
  import opened VesselRecords
  import opened JsText

  // ---------------------------------------------------------------------------
  // Speed colours and segments

  datatype Color = Green | Yellow | Red

  /** `getColor`: green below 6 knots, yellow up to and including 8.5, red above. */
  function GetColor(speed: real): (c: Color)
    ensures c == Green <==> speed < 6.0
    ensures c == Yellow <==> 6.0 <= speed <= 8.5
    ensures c == Red <==> 8.5 < speed
  {
    if speed < 6.0 then Green
    else if speed <= 8.5 then Yellow
    else Red
  }

  /** The order of the colour bands, slowest first. */
  function Band(c: Color): nat {
    match c
    case Green => 0
    case Yellow => 1
    case Red => 2
  }

  /** A faster vessel never gets a slower colour. */
  lemma GetColorMonotone(a: real, b: real)
    requires a <= b
    ensures Band(GetColor(a)) <= Band(GetColor(b))
  {
  }

  /** One `Polyline` of `SegmentedPath`. */
  datatype Segment = Segment(from: Point, to: Point, color: Color)

  /**
   * `SegmentedPath`: one segment per pair of consecutive points, coloured by
   * the speed of the point it starts at.
   */
  function Segments(path: seq<Sample>): (r: seq<Segment>)
    ensures |r| == if |path| < 2 then 0 else |path| - 1
    ensures forall i :: 0 <= i < |r| ==>
      r[i] == Segment(PointOf(path[i]), PointOf(path[i + 1]), GetColor(path[i].speed))
  {
    if |path| < 2 then []
    else [Segment(PointOf(path[0]), PointOf(path[1]), GetColor(path[0].speed))] + Segments(path[1..])
  }

  /**
   * The segments drawn for the first k + 1 samples are the first k segments of
   * the whole track: advancing the cursor only ever appends segments.
   */
  lemma SegmentsOfPrefix(path: seq<Sample>, k: nat)
    requires k < |path|
    ensures Segments(path[..k + 1]) == Segments(path)[..k]
  {
    var a, b := Segments(path[..k + 1]), Segments(path)[..k];
    assert |a| == |b|;
    forall i | 0 <= i < |a| ensures a[i] == b[i] {
      assert path[..k + 1][i] == path[i] && path[..k + 1][i + 1] == path[i + 1];
    }
  }

  /** The speed of a track's last sample colours nothing. */
  lemma LastSpeedIsUnused(path: seq<Sample>, v: real)
    requires path != []
    ensures var last := path[|path| - 1];
      Segments(path[..|path| - 1] + [last.(speed := v)]) == Segments(path)
  {
    var last := path[|path| - 1];
    var q := path[..|path| - 1] + [last.(speed := v)];
    var a, b := Segments(q), Segments(path);
    assert |a| == |b|;
    forall i | 0 <= i < |a| ensures a[i] == b[i] {
      assert q[i] == path[i];
      assert PointOf(q[i + 1]) == PointOf(path[i + 1]);
    }
  }

  // ---------------------------------------------------------------------------
  // Search

  /** What `handleSearch` compares against: the MMSI text, or a lower-cased name. */
  datatype Query = ByMmsi(digits: string) | ByName(name: string)

  /** Trims the search text; an all-digit text is an MMSI, anything else a name. */
  function ParseQuery(search: string): Query {
    var trimmed := Trim(search);
    if IsAllDigits(trimmed) then ByMmsi(trimmed) else ByName(ToLower(trimmed))
  }

  /** `(v.name || "").trim().toLowerCase()` */
  function NameKey(v: Sample): string {
    ToLower(Trim(if v.name.Some? then v.name.value else ""))
  }

  /** The predicate handed to `vessels.find`. */
  predicate Matches(v: Sample, q: Query) {
    match q
    case ByMmsi(digits) => IntToString(v.mmsi) == digits
    case ByName(name) => NameKey(v) == name
  }

  /** `Array.prototype.find`, as the index of the first element the predicate accepts. */
  function FindIndex<T>(s: seq<T>, p: T -> bool): (r: Option<nat>)
    ensures r.Some? ==> r.value < |s| && p(s[r.value])
    ensures r.Some? ==> forall j :: 0 <= j < r.value ==> !p(s[j])
    ensures r.None? ==> forall j :: 0 <= j < |s| ==> !p(s[j])
  {
    if s == [] then None
    else if p(s[0]) then Some(0)
    else
      var found := FindIndex(s[1..], p);
      if found.None? then None else Some(found.value + 1)
  }

  /** The vessel `handleSearch` finds for a query: the first one that matches. */
  function FindMatch(vessels: seq<Sample>, q: Query): (r: Option<nat>)
    ensures r.Some? ==> r.value < |vessels| && Matches(vessels[r.value], q)
    ensures r.Some? ==> forall j :: 0 <= j < r.value ==> !Matches(vessels[j], q)
    ensures r.None? ==> forall j :: 0 <= j < |vessels| ==> !Matches(vessels[j], q)
  {
    FindIndex(vessels, v => Matches(v, q))
  }

  /**
   * An all-digit search matches a vessel exactly when the text is the MMSI as
   * `String` prints it: the same value, and no leading zero.
   */
  lemma MmsiSearchMatches(v: Sample, search: string)
    requires IsAllDigits(Trim(search))
    ensures Matches(v, ParseQuery(search)) <==>
      v.mmsi >= 0 && IsCanonicalDecimal(Trim(search)) && ParseDecimal(Trim(search)) == v.mmsi
  {
    IntToStringMatches(v.mmsi, Trim(search));
  }

  /**
   * A name search matches a vessel exactly when the trimmed names agree up to
   * case.
   */
  lemma NameSearchMatches(v: Sample, search: string)
    requires !IsAllDigits(Trim(search))
    ensures Matches(v, ParseQuery(search)) <==> NameKey(v) == ToLower(Trim(search))
  {
  }

  /** Two searches that differ only in padding and letter case find the same vessels. */
  lemma {:induction false} SearchIgnoresCaseAndPadding(a: string, b: string)
    requires ToLower(Trim(a)) == ToLower(Trim(b))
    ensures ParseQuery(a) == ParseQuery(b)
  {
    ToLowerDigits(Trim(a));
    ToLowerDigits(Trim(b));
  }

  // ---------------------------------------------------------------------------
  // Playback cursor

  /** The slider position and whether the play timer is on. */
  datatype Cursor = Cursor(index: int, playing: bool)

  /** One interval tick over a history of `len` samples. */
  function TickCursor(c: Cursor, len: int): Cursor {
    if c.index < len - 1 then Cursor(c.index + 1, c.playing) else Cursor(c.index, false)
  }

  /** The cursor after `k` ticks. */
  function TickN(c: Cursor, len: int, k: nat): Cursor {
    if k == 0 then c else TickCursor(TickN(c, len, k - 1), len)
  }

  function Min(a: int, b: int): int {
    if a <= b then a else b
  }

  /**
   * From a cursor inside the history, k ticks move it to min(index + k, last)
   * and playing stops on the first tick that finds it at the last index.
   */
  lemma {:induction false} TicksFrom(c: Cursor, len: int, k: nat)
    requires 0 <= c.index < len
    ensures TickN(c, len, k) == Cursor(Min(c.index + k, len - 1), c.playing && c.index + k < len)
  {
    if k > 0 {
      TicksFrom(c, len, k - 1);
    }
  }

  /** Playing from index i reaches the last index and stops after len - i ticks, never passing it. */
  lemma PlaybackStopsAtEnd(c: Cursor, len: int)
    requires 0 <= c.index < len
    ensures TickN(c, len, len - c.index) == Cursor(len - 1, false)
    ensures forall k: nat :: TickN(c, len, k).index <= len - 1
  {
    TicksFrom(c, len, len - c.index);
    forall k: nat ensures TickN(c, len, k).index <= len - 1 {
      TicksFrom(c, len, k);
    }
  }

  // ---------------------------------------------------------------------------
  // The page state

  datatype Mode = Live | Historical

  /** The state hooks of `MapPage` that the playback and search read and write. */
  class MapPageState {
    var mode: Mode
    var vessels: seq<Sample>
    var searchMatch: Option<Sample>
    var selected: Option<int>
    var history: seq<Sample>
    var visiblePath: seq<Sample>
    var sliderIndex: int
    var isPlaying: bool
    var selectedName: Option<string>

    /**
     * The cursor lies inside a non-empty history (it is 0 or -1 for an empty
     * one), and the drawn path is a prefix of the history.
     */
    ghost predicate Valid()
      reads this
    {
      && (history == [] ==> sliderIndex == 0 || sliderIndex == -1)
      && (history != [] ==> 0 <= sliderIndex < |history|)
      && |visiblePath| <= |history| && visiblePath == history[..|visiblePath|]
    }

    /** The prefix effect has caught up with the cursor. */
    ghost predicate Synced()
      reads this
    {
      history != [] ==> 0 <= sliderIndex < |history| && visiblePath == history[..sliderIndex + 1]
    }

    constructor ()
      ensures Valid() && Synced()
      ensures mode == Live && vessels == [] && searchMatch == None && selected == None
      ensures history == [] && visiblePath == [] && sliderIndex == 0 && !isPlaying
      ensures selectedName == Some("")
    {
      mode := Live;
      vessels := [];
      searchMatch := None;
      selected := None;
      history := [];
      visiblePath := [];
      sliderIndex := 0;
      isPlaying := false;
      selectedName := Some("");
    }

    /** The play interval is running. */
    predicate TimerRunning()
      reads this
    {
      isPlaying && mode == Historical
    }

    /** The historical fetch is issued: historical mode with a truthy selected MMSI. */
    predicate HistoryRequested()
      reads this
    {
      mode == Historical && selected.Some? && selected.value != 0
    }

    /** The play button and the slider are shown. */
    predicate ControlsShown()
      reads this
    {
      mode == Historical && |history| > 0
    }

    /**
     * Whenever the play button and the slider are shown, the slider's value lies
     * between its `min` of 0 and its `max` of `history.length - 1`, so every
     * position `Seek` accepts is one the range input can report.
     */
    lemma SliderInRange()
      requires Valid()
      ensures ControlsShown() ==> 0 <= sliderIndex <= |history| - 1
    {
    }

    /** The live poll's response handler. */
    method ReceiveLiveData(p: Payload)
      modifies this`vessels
      ensures vessels == RecordsOf(p)
    {
      vessels := RecordsOf(p);
    }

    /** A click on a live marker: select that vessel and switch to historical mode. */
    method SelectVessel(v: Sample)
      requires Valid()
      modifies this`selected, this`mode
      ensures Valid()
      ensures selected == Some(v.mmsi) && mode == Historical
      ensures HistoryRequested() <==> v.mmsi != 0
    {
      selected := Some(v.mmsi);
      mode := Historical;
    }

    /**
     * The historical fetch's response handler: keep the records with both
     * coordinates, show all of them, and put the cursor on the last one.
     */
    method ReceiveHistorical(p: Payload)
      modifies this`history, this`visiblePath, this`sliderIndex, this`selectedName
      ensures Valid() && Synced()
      ensures history == KeepWithCoords(RecordsOf(p))
      ensures visiblePath == history
      ensures sliderIndex == |history| - 1
      ensures history != [] ==> selectedName == history[0].name
      ensures history == [] ==> selectedName == old(selectedName)
    {
      var kept := KeepWithCoords(RecordsOf(p));
      history := kept;
      visiblePath := kept;
      sliderIndex := |kept| - 1;
      if |kept| > 0 {
        selectedName := kept[0].name;
      }
    }

    /** One firing of the play interval. */
    method Tick()
      requires Valid()
      modifies this`sliderIndex, this`isPlaying
      ensures Valid()
      ensures Cursor(sliderIndex, isPlaying) == TickCursor(old(Cursor(sliderIndex, isPlaying)), |history|)
    {
      if sliderIndex < |history| - 1 {
        sliderIndex := sliderIndex + 1;
      } else {
        isPlaying := false;
      }
    }

    /** The range input: its value always lies between its `min` and `max`. */
    method Seek(k: int)
      requires Valid()
      requires 0 <= k < |history|
      modifies this`sliderIndex
      ensures Valid()
      ensures sliderIndex == k
    {
      sliderIndex := k;
    }

    /** The play/pause button. */
    method TogglePlay()
      modifies this`isPlaying
      ensures isPlaying == !old(isPlaying)
    {
      isPlaying := !isPlaying;
    }

    /** The effect on `[sliderIndex, history]`: show the history up to the cursor. */
    method SyncVisiblePath()
      requires Valid()
      modifies this`visiblePath
      ensures Valid() && Synced()
      ensures history != [] ==> |visiblePath| == sliderIndex + 1 && visiblePath == history[..sliderIndex + 1]
      ensures history == [] ==> visiblePath == old(visiblePath)
    {
      if |history| > 0 {
        visiblePath := history[..sliderIndex + 1];
      }
    }

    /** The "Back to Live" button. */
    method BackToLive()
      modifies this`mode, this`selected, this`searchMatch, this`history, this`visiblePath,
        this`sliderIndex, this`isPlaying
      ensures Valid() && Synced()
      ensures mode == Live && selected == None && searchMatch == None
      ensures history == [] && visiblePath == [] && sliderIndex == 0 && !isPlaying
      ensures !TimerRunning() && !HistoryRequested()
    {
      mode := Live;
      selected := None;
      searchMatch := None;
      history := [];
      visiblePath := [];
      sliderIndex := 0;
      isPlaying := false;
    }

    /** `handleSearch`: show the first vessel the search text matches, if any. */
    method HandleSearch(search: string)
      modifies this`searchMatch
      ensures var i := FindMatch(vessels, ParseQuery(search));
        searchMatch == if i.Some? then Some(vessels[i.value]) else old(searchMatch)
      ensures var i := FindMatch(vessels, ParseQuery(search));
        i.Some? ==> VesselsToShow() == [vessels[i.value]]
    {
      var i := FindMatch(vessels, ParseQuery(search));
      if i.Some? {
        searchMatch := Some(vessels[i.value]);
      }
    }

    /** The "Reset Search" button. */
    method ResetSearch()
      modifies this`searchMatch
      ensures searchMatch == None
      ensures VesselsToShow() == vessels
    {
      searchMatch := None;
    }

    /** `vesselsToShow`: the search match alone, or every vessel. */
    function VesselsToShow(): (r: seq<Sample>)
      reads this
      ensures searchMatch.Some? ==> r == [searchMatch.value]
      ensures searchMatch.None? ==> r == vessels
    {
      if searchMatch.Some? then [searchMatch.value] else vessels
    }

    /** The live-mode markers, one per vessel shown, in order. */
    function LiveMarkers(): (r: seq<Point>)
      reads this
      ensures mode == Live ==> |r| == |VesselsToShow()|
      ensures mode == Live ==> forall i :: 0 <= i < |r| ==> r[i] == PointOf(VesselsToShow()[i])
      ensures mode == Historical ==> r == []
    {
      if mode == Live then PointsOf(VesselsToShow()) else []
    }

    /** The historical-mode polylines. */
    function VisibleSegments(): seq<Segment>
      reads this
    {
      if mode == Historical then Segments(visiblePath) else []
    }

    /** The start marker: `visiblePath[0]`. */
    function StartSample(): Option<Sample>
      reads this
    {
      At(visiblePath, 0)
    }

    /** The end marker: `visiblePath[visiblePath.length - 1]`. */
    function EndSample(): Option<Sample>
      reads this
    {
      At(visiblePath, |visiblePath| - 1)
    }

    /**
     * Once the prefix effect has run, the start marker sits on the first sample,
     * the end marker on the sample under the cursor, and the polylines are the
     * first `sliderIndex` segments of the whole track.
     */
    lemma CursorView()
      requires Valid() && Synced() && history != [] && mode == Historical
      ensures StartSample() == Some(history[0])
      ensures EndSample() == Some(history[sliderIndex])
      ensures VisibleSegments() == Segments(history)[..sliderIndex]
    {
      SegmentsOfPrefix(history, sliderIndex);
    }
  }
}
