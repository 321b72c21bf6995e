/** The `Map` class of Model/Map.php as an immutable record: every mutator
    is a function from the current state to the next one (or to the error
    the PHP method throws, leaving the object as it was), and every getter
    that calls `json_encode` returns the abstract value it encodes. */
module MapModel {
  import opened Wrappers
  import opened OrderedMap
  import opened Json
  import opened Layers
  import opened Markers

  const DefaultLatitude: real := 44.8485138261124
  const DefaultLongitude: real := -0.563934445381165
  const DefaultZoom: int := 10
  /** Above this many markers a map needs `allowLargeSetOfMarkers`. */
  const MaxMarkersOnMap: nat := 5000
  const DefaultLegendPosition: string := "top-right"

  /** The action and optional parameters stored under an event name. */
  datatype Event = Event(action: Json, params: Json)

  /** One legend item: an array of attributes, opaque to the map. */
  type LegendItem = seq<(string, Json)>

  /** The exceptions the mutators throw. */
  datatype Error =
    | TooManyMarkers(ceiling: nat)
    | EmptyLegendItems
    | EmptyLegendItem

  /** The properties of a `Map` object. None stands for PHP's null. */
  datatype MapState = MapState(
    centerLatitude: Option<real>,
    centerLongitude: Option<real>,
    zoomLevel: Option<int>,
    layers: seq<Layer>,
    markers: seq<Marker>,
    options: OMap<string, Json>,
    events: Option<OMap<string, Event>>,
    showLegend: bool,
    title: Option<string>,
    legendPosition: string,
    legendItems: Option<seq<LegendItem>>,
    hasScale: bool,
    allowLargeSet: bool)

  /** The object as the property initialisers leave it, before the constructor body runs. */
  function Fresh(): MapState {
    MapState(None, None, None, [], [], [], None, false, None, DefaultLegendPosition, None, true, false)
  }

  /** PHP's truthiness of a string: only "" and "0" are false. */
  predicate Truthy(s: string) {
    s != "" && s != "0"
  }

  /** `isReady`: centre and zoom hold values. The PHP type checks it also
      makes hold by the types of the setters' parameters. */
  predicate IsReady(m: MapState) {
    m.centerLatitude.Some? && m.centerLongitude.Some? && m.zoomLevel.Some?
  }

  // ---- plain setters ------------------------------------------------------

  function SetCenterLatitude(m: MapState, lat: real): (r: MapState)
    ensures r.centerLatitude == Some(lat)
    ensures r.(centerLatitude := m.centerLatitude) == m
  {
    m.(centerLatitude := Some(lat))
  }

  function SetCenterLongitude(m: MapState, lon: real): (r: MapState)
    ensures r.centerLongitude == Some(lon)
    ensures r.(centerLongitude := m.centerLongitude) == m
  {
    m.(centerLongitude := Some(lon))
  }

  function SetZoomLevel(m: MapState, zoom: int): (r: MapState)
    ensures r.zoomLevel == Some(zoom)
    ensures r.(zoomLevel := m.zoomLevel) == m
  {
    m.(zoomLevel := Some(zoom))
  }

  function SetTitle(m: MapState, title: string): (r: MapState)
    ensures r.title == Some(title)
    ensures r.(title := m.title) == m
  {
    m.(title := Some(title))
  }

  // ---- layers -------------------------------------------------------------

  /** `addLayer`: the layer goes at the end, the others stay where they were. */
  function AddLayer(m: MapState, l: Layer): (r: MapState)
    ensures |r.layers| == |m.layers| + 1 && r.layers[|m.layers|] == l
    ensures r.layers[..|m.layers|] == m.layers
    ensures r.(layers := m.layers) == m
  {
    m.(layers := m.layers + [l])
  }

  /** `setBackground`: a new tile layer at index 0, in place of the old one.
      The parameter is untyped in PHP, so `null` is accepted too; unlike the
      constructor, no truthiness test is made, so "" and "0" are kept. */
  function SetBackground(m: MapState, background: Option<string>): (r: MapState)
    ensures |r.layers| == if |m.layers| == 0 then 1 else |m.layers|
    ensures r.layers[0] == TileLayer(background)
    ensures forall i :: 1 <= i < |m.layers| ==> r.layers[i] == m.layers[i]
    ensures r.(layers := m.layers) == m
  {
    var bg := TileLayer(background);
    if |m.layers| == 0 then m.(layers := [bg]) else m.(layers := m.layers[0 := bg])
  }

  /** `removeBackground`: a tile layer with the empty URL at index 0. */
  function RemoveBackground(m: MapState): (r: MapState)
    ensures r == SetBackground(m, Some(""))
  {
    SetBackground(m, Some(""))
  }

  // ---- construction -------------------------------------------------------

  /** `new Map($lat, $lon, $zoom, $background)`. A background that PHP finds
      falsy ("" or "0") gives the tile layer built without one. */
  function New(lat: real, lon: real, zoom: int, background: Option<string>): (m: MapState)
    ensures IsReady(m)
    ensures m.centerLatitude == Some(lat) && m.centerLongitude == Some(lon) && m.zoomLevel == Some(zoom)
    ensures |m.layers| == 1
    ensures m.layers[0] == TileLayer(if background.Some? && Truthy(background.value) then background else None)
    ensures m.options == [("scale", JBool(true))]
    ensures m.markers == [] && m.events == None && m.title == None
    ensures !m.showLegend && m.legendPosition == DefaultLegendPosition && m.legendItems == None
    ensures m.hasScale && !m.allowLargeSet
  {
    var m1 := SetZoomLevel(SetCenterLongitude(SetCenterLatitude(Fresh(), lat), lon), zoom);
    var m2 := if background.Some? && Truthy(background.value)
              then AddLayer(m1, TileLayer(background)) else AddLayer(m1, TileLayer(None));
    m2.(options := Put(m2.options, "scale", JBool(m2.hasScale)))
  }

  /** `new Map()` */
  function NewDefault(): (m: MapState)
    ensures m.centerLatitude == Some(44.8485138261124) && m.centerLongitude == Some(-0.563934445381165)
    ensures m.zoomLevel == Some(10) && m.layers == [TileLayer(None)]
    ensures IsReady(m) && m.options == [("scale", JBool(true))]
  {
    New(DefaultLatitude, DefaultLongitude, DefaultZoom, None)
  }

  // ---- markers ------------------------------------------------------------

  /** `allowLargeSetOfMarkers` */
  function AllowLargeSetOfMarkers(m: MapState): (r: MapState)
    ensures r.allowLargeSet
    ensures r.(allowLargeSet := m.allowLargeSet) == m
  {
    m.(allowLargeSet := true)
  }

  /** `addMarker`: the guard looks at the count BEFORE the marker is added,
      so a map without the large-set flag accepts a 5001st marker and
      refuses the 5002nd. */
  function AddMarker(m: MapState, mk: Marker): (r: Result<MapState, Error>)
    ensures r.Failure? <==> |m.markers| > MaxMarkersOnMap && !m.allowLargeSet
    ensures r.Failure? ==> r.error == TooManyMarkers(MaxMarkersOnMap)
    ensures r.Success? ==> r.value.markers == m.markers + [mk]
    ensures r.Success? ==> r.value.(markers := m.markers) == m
  {
    if |m.markers| > MaxMarkersOnMap && !m.allowLargeSet then Failure(TooManyMarkers(MaxMarkersOnMap))
    else Success(m.(markers := m.markers + [mk]))
  }

  /** `setMarkers`: the guard looks at the new list, so it refuses 5001
      markers. */
  function SetMarkers(m: MapState, markers: seq<Marker>): (r: Result<MapState, Error>)
    ensures r.Failure? <==> |markers| > MaxMarkersOnMap && !m.allowLargeSet
    ensures r.Failure? ==> r.error == TooManyMarkers(MaxMarkersOnMap)
    ensures r.Success? ==> r.value.markers == markers
    ensures r.Success? ==> r.value.(markers := m.markers) == m
  {
    if |markers| > MaxMarkersOnMap && !m.allowLargeSet then Failure(TooManyMarkers(MaxMarkersOnMap))
    else Success(m.(markers := markers))
  }

  /** `getMarkers`: one record per marker, in insertion order; `[]` when
      there is none. */
  function MarkersJson(m: MapState): (r: Json)
    ensures r.JArray? && |r.items| == |m.markers|
    ensures forall i :: 0 <= i < |m.markers| ==> r.items[i] == MarkerRecord(m.markers[i])
  {
    JArray(seq(|m.markers|, i requires 0 <= i < |m.markers| => MarkerRecord(m.markers[i])))
  }

  /** `getPointsFromMarkers`: one (latitude, longitude) pair per marker, in
      insertion order. */
  function PointsFromMarkers(m: MapState): (r: seq<(real, real)>)
    ensures |r| == |m.markers|
    ensures forall i :: 0 <= i < |m.markers| ==> r[i] == Point(m.markers[i])
  {
    seq(|m.markers|, i requires 0 <= i < |m.markers| => Point(m.markers[i]))
  }

  // ---- options and scale --------------------------------------------------

  /** `setOptions` */
  function SetOptions(m: MapState, options: OMap<string, Json>): (r: MapState)
    ensures r.options == options
    ensures r.(options := m.options) == m
  {
    m.(options := options)
  }

  /** `getOptions` */
  function OptionsJson(m: MapState): (r: Json)
    ensures r == JArray([]) <==> |m.options| == 0
    ensures r.JObject? ==> r.fields == m.options
    ensures |m.options| > 0 ==> r == JObject(m.options)
  {
    FromOMap(m.options)
  }

  /** `removeScale`: the flag drops, and the "scale" option is re-synced from
      it; no other option changes. */
  function RemoveScale(m: MapState): (r: MapState)
    ensures !r.hasScale
    ensures Lookup(r.options, "scale") == Some(JBool(false))
    ensures forall k :: k != "scale" ==> Lookup(r.options, k) == Lookup(m.options, k)
    ensures "scale" in Keys(m.options) ==> Keys(r.options) == Keys(m.options)
    ensures "scale" !in Keys(m.options) ==> Keys(r.options) == Keys(m.options) + ["scale"]
    ensures r.(options := m.options, hasScale := m.hasScale) == m
  {
    var m1 := m.(hasScale := false);
    m1.(options := Put(m1.options, "scale", JBool(m1.hasScale)))
  }

  // ---- events -------------------------------------------------------------

  /** `addEvent`: a known name keeps its place and gets the new action and
      parameters; a new name goes last. */
  function AddEvent(m: MapState, name: string, action: Json, params: Json): (r: MapState)
    ensures r.events.Some?
    ensures Lookup(r.events.value, name) == Some(Event(action, params))
    ensures forall k :: k != name ==> Lookup(r.events.value, k) == Lookup(m.events.GetOr([]), k)
    ensures name in Keys(m.events.GetOr([])) ==> Keys(r.events.value) == Keys(m.events.GetOr([]))
    ensures name !in Keys(m.events.GetOr([])) ==> Keys(r.events.value) == Keys(m.events.GetOr([])) + [name]
    ensures r.(events := m.events) == m
  {
    m.(events := Some(Put(m.events.GetOr([]), name, Event(action, params))))
  }

  /** `setEvents` */
  function SetEvents(m: MapState, events: OMap<string, Event>): (r: MapState)
    ensures r.events == Some(events)
    ensures EventsJson(r).None? <==> |events| == 0
    ensures r.(events := m.events) == m
  {
    m.(events := Some(events))
  }

  function EventRecord(name: string, e: Event): Json {
    JObject([("name", JStr(name)), ("action", e.action), ("params", e.params)])
  }

  /** `getEvents`: null when there is no event, otherwise one record per
      name in the order the names were first stored. */
  function EventsJson(m: MapState): (r: Option<Json>)
    ensures r.None? <==> m.events.None? || |m.events.value| == 0
    ensures r.Some? ==> r.value.JArray? && |r.value.items| == |m.events.value|
    ensures r.Some? ==> forall i :: 0 <= i < |m.events.value| ==>
      r.value.items[i] == EventRecord(m.events.value[i].0, m.events.value[i].1)
  {
    match m.events
    case None => None
    case Some(es) =>
      if |es| == 0 then None
      else Some(JArray(seq(|es|, i requires 0 <= i < |es| => EventRecord(es[i].0, es[i].1))))
  }

  // ---- legend -------------------------------------------------------------

  /** `addLegend` */
  function AddLegend(m: MapState, position: string): (r: MapState)
    ensures r.showLegend && r.legendPosition == position
    ensures r.(showLegend := m.showLegend, legendPosition := m.legendPosition) == m
  {
    m.(showLegend := true, legendPosition := position)
  }

  /** `addLegendItems`: refuses an empty list; otherwise the items go after
      the ones already there. */
  function AddLegendItems(m: MapState, items: seq<LegendItem>): (r: Result<MapState, Error>)
    ensures r.Failure? <==> |items| == 0
    ensures r.Failure? ==> r.error == EmptyLegendItems
    ensures r.Success? ==> r.value.legendItems == Some(m.legendItems.GetOr([]) + items)
    ensures r.Success? ==> r.value.(legendItems := m.legendItems) == m
  {
    if |items| == 0 then Failure(EmptyLegendItems)
    else
      var merged := if m.legendItems.Some? && |m.legendItems.value| > 0
                    then m.legendItems.value + items else items;
      assert [] + items == items;
      Success(m.(legendItems := Some(merged)))
  }

  /** `addLegendItem`: refuses an empty item; otherwise appends it. */
  function AddLegendItem(m: MapState, item: LegendItem): (r: Result<MapState, Error>)
    ensures r.Failure? <==> |item| == 0
    ensures r.Failure? ==> r.error == EmptyLegendItem
    ensures r.Success? ==> r.value.legendItems == Some(m.legendItems.GetOr([]) + [item])
    ensures r.Success? ==> r.value.(legendItems := m.legendItems) == m
  {
    if |item| == 0 then Failure(EmptyLegendItem)
    else Success(m.(legendItems := Some(m.legendItems.GetOr([]) + [item])))
  }
}
