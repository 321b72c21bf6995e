/** Properties of the Map model that relate several calls: what the
    serialisers see after a mutator, the marker ceiling over repeated
    calls, the order of events and legend items. */
module MapProperties {
  import opened Wrappers
  import opened OrderedMap
  import opened Json
  import opened Layers
  import opened Markers
  import opened MapModel

  // ---- construction and scale ---------------------------------------------

  /** A new map has no overlay, so its layer output is the empty array, and
      no event, so its event output is null. */
  lemma NewMapOutputs(lat: real, lon: real, zoom: int, background: Option<string>)
    ensures LayersJson(New(lat, lon, zoom, background).layers) == JArray([])
    ensures EventsJson(New(lat, lon, zoom, background)) == None
    ensures MarkersJson(New(lat, lon, zoom, background)) == JArray([])
    ensures OptionsJson(New(lat, lon, zoom, background)) == JObject([("scale", JBool(true))])
  {
  }

  /** On a new map, `removeScale` leaves exactly one option, scale = false. */
  lemma NewThenRemoveScale(lat: real, lon: real, zoom: int, background: Option<string>)
    ensures RemoveScale(New(lat, lon, zoom, background)).options == [("scale", JBool(false))]
  {
    var m := New(lat, lon, zoom, background);
    assert Keys(m.options) == ["scale"];
    var r := RemoveScale(m);
    assert |r.options| == 1;
    LookupAt(r.options, 0);
  }

  // ---- layers -------------------------------------------------------------

  /** Replacing the background never changes what `getLayersInfos` emits. */
  lemma SetBackgroundKeepsLayerOutput(m: MapState, background: Option<string>)
    ensures LayersInfos(SetBackground(m, background).layers) == LayersInfos(m.layers)
    ensures LayersJson(SetBackground(m, background).layers) == LayersJson(m.layers)
  {
    var a, b := LayersInfos(SetBackground(m, background).layers), LayersInfos(m.layers);
    assert |a| == |b|;
    forall i | 0 <= i < |a| ensures a[i] == b[i] {
    }
  }

  /** `removeBackground` is `setBackground('')`: layer 0 becomes the tile
      layer with the empty URL, and the layer output does not change. */
  lemma RemoveBackgroundKeepsLayerOutput(m: MapState)
    ensures RemoveBackground(m).layers[0] == TileLayer(Some(""))
    ensures LayersJson(RemoveBackground(m).layers) == LayersJson(m.layers)
  {
    SetBackgroundKeepsLayerOutput(m, Some(""));
  }

  /** Adding an overlay adds exactly one record, keyed by the overlay's
      index, after the existing ones. */
  lemma AddLayerAppendsRecord(m: MapState, l: Layer)
    requires |m.layers| >= 1
    ensures LayersInfos(AddLayer(m, l).layers) == LayersInfos(m.layers) + [(|m.layers|, LayerInfo(l))]
  {
    LayersInfosAppend(m.layers, l);
  }

  // ---- markers ------------------------------------------------------------

  /** `addMarker` called once per element of `mks`, stopping at the first
      exception. */
  function AddMarkers(m: MapState, mks: seq<Marker>): Result<MapState, Error>
    decreases |mks|
  {
    if mks == [] then Success(m)
    else
      var m1 :- AddMarker(m, mks[0]);
      AddMarkers(m1, mks[1..])
  }

  /** Without the large-set flag, successive `addMarker` calls all succeed
      exactly when they end with at most 5001 markers: one more than the
      ceiling. */
  lemma {:induction false} AddMarkersCeiling(m: MapState, mks: seq<Marker>)
    requires !m.allowLargeSet
    ensures AddMarkers(m, mks).Success? <==> mks == [] || |m.markers| + |mks| <= MaxMarkersOnMap + 1
    ensures AddMarkers(m, mks).Success? ==> AddMarkers(m, mks).value.markers == m.markers + mks
    decreases |mks|
  {
    if mks != [] {
      var r := AddMarker(m, mks[0]);
      if r.Success? {
        AddMarkersCeiling(r.value, mks[1..]);
        assert m.markers + [mks[0]] + mks[1..] == m.markers + mks;
      }
    }
  }

  /** So `addMarker` alone never takes a map without the flag past 5001 markers. */
  lemma AddMarkersNeverPast5001(m: MapState, mks: seq<Marker>)
    requires !m.allowLargeSet && |m.markers| <= MaxMarkersOnMap + 1
    ensures AddMarkers(m, mks).Success? ==> |AddMarkers(m, mks).value.markers| <= MaxMarkersOnMap + 1
  {
    AddMarkersCeiling(m, mks);
  }

  /** The two guards disagree by one: 5001 markers added one by one to a new
      map are accepted, the same 5001 markers handed to `setMarkers` are not. */
  lemma CeilingGuardsDisagree(lat: real, lon: real, zoom: int, background: Option<string>, mks: seq<Marker>)
    requires |mks| == MaxMarkersOnMap + 1
    ensures AddMarkers(New(lat, lon, zoom, background), mks).Success?
    ensures AddMarkers(New(lat, lon, zoom, background), mks).value.markers == mks
    ensures SetMarkers(New(lat, lon, zoom, background), mks) == Failure(TooManyMarkers(MaxMarkersOnMap))
  {
    AddMarkersCeiling(New(lat, lon, zoom, background), mks);
  }

  /** Once `allowLargeSetOfMarkers` has been called, neither marker mutator fails. */
  lemma LargeSetNeverFails(m: MapState, mk: Marker, mks: seq<Marker>)
    requires m.allowLargeSet
    ensures AddMarker(m, mk).Success? && SetMarkers(m, mks).Success?
    ensures AddMarkers(m, mks) == Success(m.(markers := m.markers + mks))
    decreases |mks|
  {
    if mks == [] {
      assert m.markers + mks == m.markers;
    } else {
      var m1 := m.(markers := m.markers + [mks[0]]);
      LargeSetNeverFails(m1, mk, mks[1..]);
      assert m.markers + [mks[0]] + mks[1..] == m.markers + mks;
    }
  }

  /** A successful `addMarker` adds one record, and one point, at the end. */
  lemma AddMarkerAppendsOutput(m: MapState, mk: Marker)
    requires AddMarker(m, mk).Success?
    ensures MarkersJson(AddMarker(m, mk).value).items == MarkersJson(m).items + [MarkerRecord(mk)]
    ensures PointsFromMarkers(AddMarker(m, mk).value) == PointsFromMarkers(m) + [Point(mk)]
  {
  }

  /** The points and the marker records describe the same positions, index by index. */
  lemma PointsAgreeWithMarkersJson(m: MapState, i: nat)
    requires i < |m.markers|
    ensures Lookup(MarkersJson(m).items[i].fields, "lat") == Some(JNum(PointsFromMarkers(m)[i].0))
    ensures Lookup(MarkersJson(m).items[i].fields, "lon") == Some(JNum(PointsFromMarkers(m)[i].1))
  {
    MarkerRecordFields(m.markers[i]);
  }

  // ---- events -------------------------------------------------------------

  datatype EventCall = EventCall(name: string, action: Json, params: Json)

  /** `addEvent` called once per element of `calls`. */
  function AddEvents(m: MapState, calls: seq<EventCall>): MapState
    decreases |calls|
  {
    if calls == [] then m
    else AddEvents(AddEvent(m, calls[0].name, calls[0].action, calls[0].params), calls[1..])
  }

  function Names(calls: seq<EventCall>): (ns: seq<string>)
    ensures |ns| == |calls| && forall i :: 0 <= i < |calls| ==> ns[i] == calls[i].name
  {
    seq(|calls|, i requires 0 <= i < |calls| => calls[i].name)
  }

  /** Events are emitted in first-insertion order: after a series of
      `addEvent` calls the names are the earlier ones followed by each new
      name at its first call; a repeated name adds nothing. */
  lemma {:induction false} AddEventsFirstInsertionOrder(m: MapState, calls: seq<EventCall>)
    ensures Keys(AddEvents(m, calls).events.GetOr([])) == AppendNew(Keys(m.events.GetOr([])), Names(calls))
    ensures calls != [] ==> EventsJson(AddEvents(m, calls)).Some?
    decreases |calls|
  {
    if calls != [] {
      var m1 := AddEvent(m, calls[0].name, calls[0].action, calls[0].params);
      AddEventsFirstInsertionOrder(m1, calls[1..]);
      assert Names(calls)[1..] == Names(calls[1..]);
      if calls[1..] == [] {
        assert |m1.events.value| > 0;
      } else {
        assert AddEvents(m, calls) == AddEvents(m1, calls[1..]);
      }
    }
  }

  /** `addEvent` with a name already present rewrites that name's record in
      place: the output keeps its length and every other record. */
  lemma AddEventOverwritesInPlace(m: MapState, name: string, action: Json, params: Json)
    requires m.events.Some? && name in Keys(m.events.value)
    ensures EventsJson(m).Some? && EventsJson(AddEvent(m, name, action, params)).Some?
    ensures |EventsJson(AddEvent(m, name, action, params)).value.items| == |EventsJson(m).value.items|
    ensures forall i :: 0 <= i < |m.events.value| ==>
      EventsJson(AddEvent(m, name, action, params)).value.items[i] ==
        if m.events.value[i].0 == name then EventRecord(name, Event(action, params))
        else EventsJson(m).value.items[i]
  {
    var es := m.events.value;
    var es' := AddEvent(m, name, action, params).events.value;
    assert Keys(es') == Keys(es);
    forall i | 0 <= i < |es|
      ensures es'[i] == if es[i].0 == name then (name, Event(action, params)) else es[i]
    {
      assert es'[i].0 == Keys(es')[i] == Keys(es)[i] == es[i].0;
      LookupAt(es, i);
      LookupAt(es', i);
    }
  }

  // ---- legend -------------------------------------------------------------

  /** `addLegendItem` called once per item, stopping at the first exception. */
  function AddLegendItemEach(m: MapState, items: seq<LegendItem>): Result<MapState, Error>
    decreases |items|
  {
    if items == [] then Success(m)
    else
      var m1 :- AddLegendItem(m, items[0]);
      AddLegendItemEach(m1, items[1..])
  }

  /** Adding non-empty items one at a time gives the same map as adding them
      all at once. */
  lemma {:induction false} LegendItemsOneByOne(m: MapState, items: seq<LegendItem>)
    requires |items| > 0
    requires forall i :: 0 <= i < |items| ==> |items[i]| > 0
    ensures AddLegendItemEach(m, items) == AddLegendItems(m, items)
    decreases |items|
  {
    var m1 := AddLegendItem(m, items[0]).value;
    if |items| == 1 {
      assert items == [items[0]];
    } else {
      LegendItemsOneByOne(m1, items[1..]);
      assert m.legendItems.GetOr([]) + [items[0]] + items[1..] == m.legendItems.GetOr([]) + items;
    }
  }
}
