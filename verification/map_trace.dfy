/** Sequences of calls on one `Map` object. A call that throws leaves the
    object as it was (the caller may catch the exception and carry on), so
    the states reached this way include those of every aborted script. */
module MapTrace {
  import opened Wrappers
  import opened OrderedMap
  import opened Json
  import opened Layers
  import opened Markers
  import opened MapModel

  /** One call of a public mutator of `Map`. */
  datatype Call =
    | CallSetCenterLatitude(lat: real)
    | CallSetCenterLongitude(lon: real)
    | CallSetZoomLevel(zoom: int)
    | CallSetTitle(title: string)
    | CallSetBackground(background: Option<string>)
    | CallRemoveBackground
    | CallAddLayer(layer: Layer)
    | CallAllowLargeSetOfMarkers
    | CallAddMarker(marker: Marker)
    | CallSetMarkers(markers: seq<Marker>)
    | CallSetOptions(options: OMap<string, Json>)
    | CallRemoveScale
    | CallAddEvent(name: string, action: Json, params: Json)
    | CallSetEvents(events: OMap<string, Event>)
    | CallAddLegend(position: string)
    | CallAddLegendItems(items: seq<LegendItem>)
    | CallAddLegendItem(item: LegendItem)

  function Step(m: MapState, c: Call): Result<MapState, Error> {
    match c
    case CallSetCenterLatitude(lat) => Success(SetCenterLatitude(m, lat))
    case CallSetCenterLongitude(lon) => Success(SetCenterLongitude(m, lon))
    case CallSetZoomLevel(zoom) => Success(SetZoomLevel(m, zoom))
    case CallSetTitle(title) => Success(SetTitle(m, title))
    case CallSetBackground(background) => Success(SetBackground(m, background))
    case CallRemoveBackground => Success(RemoveBackground(m))
    case CallAddLayer(layer) => Success(AddLayer(m, layer))
    case CallAllowLargeSetOfMarkers => Success(AllowLargeSetOfMarkers(m))
    case CallAddMarker(marker) => AddMarker(m, marker)
    case CallSetMarkers(markers) => SetMarkers(m, markers)
    case CallSetOptions(options) => Success(SetOptions(m, options))
    case CallRemoveScale => Success(RemoveScale(m))
    case CallAddEvent(name, action, params) => Success(AddEvent(m, name, action, params))
    case CallSetEvents(events) => Success(SetEvents(m, events))
    case CallAddLegend(position) => Success(AddLegend(m, position))
    case CallAddLegendItems(items) => AddLegendItems(m, items)
    case CallAddLegendItem(item) => AddLegendItem(m, item)
  }

  /** The object after the calls, each throwing call leaving it unchanged. */
  function Run(m: MapState, calls: seq<Call>): MapState
    decreases |calls|
  {
    if calls == [] then m
    else
      var next := match Step(m, calls[0]) case Success(m1) => m1 case Failure(_) => m;
      Run(next, calls[1..])
  }

  /** What holds of every `Map` object once its constructor has run. */
  predicate Invariant(m: MapState) {
    && IsReady(m)
    && |m.layers| >= 1
    && (m.allowLargeSet || |m.markers| <= MaxMarkersOnMap + 1)
    && (m.legendItems.Some? ==> |m.legendItems.value| > 0)
  }

  lemma StepKeepsInvariant(m: MapState, c: Call)
    requires Invariant(m)
    ensures Step(m, c).Success? ==> Invariant(Step(m, c).value)
  {
  }

  lemma {:induction false} RunKeepsInvariant(m: MapState, calls: seq<Call>)
    requires Invariant(m)
    ensures Invariant(Run(m, calls))
    decreases |calls|
  {
    if calls != [] {
      StepKeepsInvariant(m, calls[0]);
      var next := match Step(m, calls[0]) case Success(m1) => m1 case Failure(_) => m;
      RunKeepsInvariant(next, calls[1..]);
    }
  }

  /** Every object built by the constructor and then driven by any calls is
      ready, keeps a background slot, holds at most 5001 markers unless the
      large-set flag is on, and never holds an empty legend item list. */
  lemma ReachableInvariant(lat: real, lon: real, zoom: int, background: Option<string>, calls: seq<Call>)
    ensures Invariant(Run(New(lat, lon, zoom, background), calls))
  {
    RunKeepsInvariant(New(lat, lon, zoom, background), calls);
  }

  /** No call clears the large-set flag. */
  lemma {:induction false} LargeSetStaysAllowed(m: MapState, calls: seq<Call>)
    requires m.allowLargeSet
    ensures Run(m, calls).allowLargeSet
    decreases |calls|
  {
    if calls != [] {
      var next := match Step(m, calls[0]) case Success(m1) => m1 case Failure(_) => m;
      LargeSetStaysAllowed(next, calls[1..]);
    }
  }

  lemma {:induction false} RunAppend(m: MapState, a: seq<Call>, b: seq<Call>)
    ensures Run(m, a + b) == Run(Run(m, a), b)
    decreases |a|
  {
    if a == [] {
      assert a + b == b;
    } else {
      var next := match Step(m, a[0]) case Success(m1) => m1 case Failure(_) => m;
      assert (a + b)[1..] == a[1..] + b;
      RunAppend(next, a[1..], b);
    }
  }

  /** After `allowLargeSetOfMarkers`, whatever else happens, no later marker
      call throws. */
  lemma NoCeilingAfterAllow(m: MapState, before: seq<Call>, after: seq<Call>, mk: Marker, mks: seq<Marker>)
    ensures Step(Run(m, before + [CallAllowLargeSetOfMarkers] + after), CallAddMarker(mk)).Success?
    ensures Step(Run(m, before + [CallAllowLargeSetOfMarkers] + after), CallSetMarkers(mks)).Success?
  {
    RunAppend(m, before + [CallAllowLargeSetOfMarkers], after);
    RunAppend(m, before, [CallAllowLargeSetOfMarkers]);
    LargeSetStaysAllowed(Run(m, before + [CallAllowLargeSetOfMarkers]), after);
  }
}
