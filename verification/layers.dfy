/** The layer classes Map.php serialises, seen only through the getters
    `getLayersInfos` calls on them, and the record it emits per layer. */
module Layers {
  import opened Wrappers
  import opened OrderedMap
  import opened Json

  /** The styling getters shared by GeoJSON, circle and rectangle layers. */
  datatype Style = Style(color: Json, weight: Json, opacity: Json, fillColor: Json, fillOpacity: Json)

  /** Which layer class an object is; `Plain` is the base tile layer. */
  datatype LayerKind =
    | Plain
    | GeoJson(json: Json, style: Style)
    | Circle(center: Json, radius: Json, style: Style)
    | Rectangle(firstPoint: Json, secondPoint: Json, style: Style)
    | Grid(parameters: Json)
    | AdjustableGrid(color: Json, weight: Json)

  /** The getters every layer has: `getBackground`, `getOptions` and
      `getEvents` (JNull when the layer has none). */
  datatype Layer = Layer(background: Option<string>, options: OMap<string, Json>, events: Json, kind: LayerKind)

  /** `new Layer($background)`, or `new Layer()` when `background` is None. */
  function TileLayer(background: Option<string>): (l: Layer)
    ensures l.kind.Plain? && l.background == background
  {
    Layer(background, [], JNull, Plain)
  }

  function BackgroundJson(b: Option<string>): Json {
    match b
    case None => JNull
    case Some(s) => JStr(s)
  }

  /** The variants whose options are rebuilt from style getters. */
  predicate Styled(k: LayerKind) {
    k.GeoJson? || k.Circle? || k.Rectangle?
  }

  /** The style part of the defaults, in the order the rectangle uses. */
  function RectangleDefaults(s: Style): (d: OMap<string, Json>)
    ensures Keys(d) == ["color", "weight", "opacity", "fillColor", "fillOpacity"]
    ensures Lookup(d, "color") == Some(s.color)
    ensures Lookup(d, "weight") == Some(s.weight)
    ensures Lookup(d, "opacity") == Some(s.opacity)
    ensures Lookup(d, "fillColor") == Some(s.fillColor)
    ensures Lookup(d, "fillOpacity") == Some(s.fillOpacity)
  {
    var d: OMap<string, Json> :=
      [("color", s.color), ("weight", s.weight), ("opacity", s.opacity),
       ("fillColor", s.fillColor), ("fillOpacity", s.fillOpacity)];
    LookupAt(d, 0); LookupAt(d, 1); LookupAt(d, 2); LookupAt(d, 3); LookupAt(d, 4);
    d
  }

  /** The GeoJSON layer lists fillColor first. */
  function GeoJsonDefaults(s: Style): (d: OMap<string, Json>)
    ensures Keys(d) == ["fillColor", "color", "weight", "opacity", "fillOpacity"]
    ensures Lookup(d, "color") == Some(s.color)
    ensures Lookup(d, "weight") == Some(s.weight)
    ensures Lookup(d, "opacity") == Some(s.opacity)
    ensures Lookup(d, "fillColor") == Some(s.fillColor)
    ensures Lookup(d, "fillOpacity") == Some(s.fillOpacity)
  {
    var d: OMap<string, Json> :=
      [("fillColor", s.fillColor), ("color", s.color), ("weight", s.weight),
       ("opacity", s.opacity), ("fillOpacity", s.fillOpacity)];
    LookupAt(d, 0); LookupAt(d, 1); LookupAt(d, 2); LookupAt(d, 3); LookupAt(d, 4);
    d
  }

  /** The circle layer puts its radius in front of the style. */
  function CircleDefaults(radius: Json, s: Style): (d: OMap<string, Json>)
    ensures Keys(d) == ["radius", "color", "weight", "opacity", "fillColor", "fillOpacity"]
    ensures Lookup(d, "color") == Some(s.color)
    ensures Lookup(d, "weight") == Some(s.weight)
    ensures Lookup(d, "opacity") == Some(s.opacity)
    ensures Lookup(d, "fillColor") == Some(s.fillColor)
    ensures Lookup(d, "fillOpacity") == Some(s.fillOpacity)
    ensures Lookup(d, "radius") == Some(radius)
  {
    var d: OMap<string, Json> :=
      [("radius", radius), ("color", s.color), ("weight", s.weight),
       ("opacity", s.opacity), ("fillColor", s.fillColor), ("fillOpacity", s.fillOpacity)];
    LookupAt(d, 0); LookupAt(d, 1); LookupAt(d, 2); LookupAt(d, 3); LookupAt(d, 4); LookupAt(d, 5);
    d
  }

  /** The keys of a styled layer's default options, in the order its branch
      of `getLayersInfos` writes them. */
  function StyleKeys(k: LayerKind): seq<string> {
    match k
    case GeoJson(_, _) => ["fillColor", "color", "weight", "opacity", "fillOpacity"]
    case Circle(_, _, _) => ["radius", "color", "weight", "opacity", "fillColor", "fillOpacity"]
    case _ => ["color", "weight", "opacity", "fillColor", "fillOpacity"]
  }

  /** The option record a styled layer starts from, before its own options
      are copied over it. */
  function StyleDefaults(k: LayerKind): (d: OMap<string, Json>)
    requires Styled(k)
    ensures Lookup(d, "color") == Some(k.style.color)
    ensures Lookup(d, "weight") == Some(k.style.weight)
    ensures Lookup(d, "opacity") == Some(k.style.opacity)
    ensures Lookup(d, "fillColor") == Some(k.style.fillColor)
    ensures Lookup(d, "fillOpacity") == Some(k.style.fillOpacity)
    ensures k.Circle? ==> Lookup(d, "radius") == Some(k.radius)
    ensures Keys(d) == StyleKeys(k)
  {
    match k
    case GeoJson(_, s) => GeoJsonDefaults(s)
    case Circle(_, radius, s) => CircleDefaults(radius, s)
    case Rectangle(_, _, s) => RectangleDefaults(s)
  }

  /** The options a styled layer emits: its style defaults overridden key by
      key by its own options, the last write winning. */
  function MergedOptions(l: Layer): (o: OMap<string, Json>)
    requires Styled(l.kind)
    ensures forall k :: Lookup(o, k) == (if k in Keys(l.options) then Lookup(l.options, k)
                                         else Lookup(StyleDefaults(l.kind), k))
    ensures Keys(o) == AppendNew(StyleKeys(l.kind), Keys(l.options))
  {
    PutAllKeys(StyleDefaults(l.kind), l.options);
    PutAll(StyleDefaults(l.kind), l.options)
  }

  /** The four keys every emitted layer record starts with. */
  const HeadKeys: seq<string> := ["background", "options", "isGeoJson", "events"]

  /** The keys a record gains after the first four, by layer class. A key
      the source assigns a second time (`isGeoJson`, `options`, `events`)
      keeps its first place, as in any PHP array. */
  function ExtraKeys(k: LayerKind): seq<string> {
    match k
    case Plain => []
    case GeoJson(_, _) => ["json"]
    case Circle(_, _, _) => ["isCircle", "center"]
    case Rectangle(_, _, _) => ["isRectangle", "points"]
    case Grid(_) => ["isGrid"]
    case AdjustableGrid(_, _) => ["isAdjustableGrid", "color", "width"]
  }

  /** No class-specific key collides with one of the four common keys. */
  lemma ExtraKeysFresh(k: LayerKind)
    ensures forall x :: x in ExtraKeys(k) ==> x !in HeadKeys
  {
    match k
    case Plain =>
    case GeoJson(_, _) =>
    case Circle(_, _, _) =>
    case Rectangle(_, _, _) =>
    case Grid(_) =>
    case AdjustableGrid(_, _) =>
  }

  /** The value the `options` entry ends up holding. */
  function OptionsEntry(l: Layer): Json {
    if Styled(l.kind) then JObject(MergedOptions(l))
    else if l.kind.Grid? then l.kind.parameters
    else FromOMap(l.options)
  }

  function Head(background: Json, options: Json, isGeoJson: bool, events: Json): seq<(string, Json)> {
    [("background", background), ("options", options), ("isGeoJson", JBool(isGeoJson)), ("events", events)]
  }

  lemma HeadFields(background: Json, options: Json, isGeoJson: bool, events: Json)
    ensures DistinctKeys(Head(background, options, isGeoJson, events))
    ensures Keys(Head(background, options, isGeoJson, events)) == HeadKeys
    ensures Lookup(Head(background, options, isGeoJson, events), "background") == Some(background)
    ensures Lookup(Head(background, options, isGeoJson, events), "options") == Some(options)
    ensures Lookup(Head(background, options, isGeoJson, events), "isGeoJson") == Some(JBool(isGeoJson))
    ensures Lookup(Head(background, options, isGeoJson, events), "events") == Some(events)
  {
    var h: OMap<string, Json> := Head(background, options, isGeoJson, events);
    LookupAt(h, 0); LookupAt(h, 1); LookupAt(h, 2); LookupAt(h, 3);
  }

  lemma LookupFirstThree<V>(e: OMap<string, V>)
    ensures |e| > 0 ==> Lookup(e, e[0].0) == Some(e[0].1)
    ensures |e| > 1 ==> Lookup(e, e[1].0) == Some(e[1].1)
    ensures |e| > 2 ==> Lookup(e, e[2].0) == Some(e[2].1)
  {
    if |e| > 0 { LookupAt(e, 0); }
    if |e| > 1 { LookupAt(e, 1); }
    if |e| > 2 { LookupAt(e, 2); }
  }

  function Extras(l: Layer): seq<(string, Json)> {
    match l.kind
    case Plain => []
    case GeoJson(json, _) => [("json", json)]
    case Circle(center, _, _) => [("isCircle", JBool(true)), ("center", center)]
    case Rectangle(first, second, _) => [("isRectangle", JBool(true)), ("points", JArray([first, second]))]
    case Grid(_) => [("isGrid", JBool(true))]
    case AdjustableGrid(color, weight) => [("isAdjustableGrid", JBool(true)), ("color", color), ("width", weight)]
  }

  lemma ExtrasFields(l: Layer)
    ensures DistinctKeys(Extras(l))
    ensures Keys(Extras(l)) == ExtraKeys(l.kind)
    ensures l.kind.GeoJson? ==> Lookup(Extras(l), "json") == Some(l.kind.json)
    ensures l.kind.Circle? ==>
      Lookup(Extras(l), "isCircle") == Some(JBool(true)) && Lookup(Extras(l), "center") == Some(l.kind.center)
    ensures l.kind.Rectangle? ==>
      Lookup(Extras(l), "isRectangle") == Some(JBool(true)) &&
      Lookup(Extras(l), "points") == Some(JArray([l.kind.firstPoint, l.kind.secondPoint]))
    ensures l.kind.Grid? ==> Lookup(Extras(l), "isGrid") == Some(JBool(true))
    ensures l.kind.AdjustableGrid? ==>
      Lookup(Extras(l), "isAdjustableGrid") == Some(JBool(true)) &&
      Lookup(Extras(l), "color") == Some(l.kind.color) && Lookup(Extras(l), "width") == Some(l.kind.weight)
  {
    var e: OMap<string, Json> := Extras(l);
    LookupFirstThree(e);
  }

  /** The record `getLayersInfos` emits for one overlay: the source's
      sequence of assignments, with the keys in the order PHP keeps them. */
  function LayerInfo(l: Layer): Json {
    var h := Head(BackgroundJson(l.background), OptionsEntry(l), l.kind.GeoJson?, l.events);
    JObject(h + Extras(l))
  }

  /** Every layer record is a PHP array (no key twice) whose keys are the
      four common ones followed by those of its class. */
  lemma LayerInfoKeys(l: Layer)
    ensures LayerInfo(l).JObject? && DistinctKeys(LayerInfo(l).fields)
    ensures Keys(LayerInfo(l).fields) == HeadKeys + ExtraKeys(l.kind)
  {
    var h := Head(BackgroundJson(l.background), OptionsEntry(l), l.kind.GeoJson?, l.events);
    var e := Extras(l);
    HeadFields(BackgroundJson(l.background), OptionsEntry(l), l.kind.GeoJson?, l.events);
    ExtrasFields(l);
    ExtraKeysFresh(l.kind);
    AppendDistinct(h, e);
    KeysAppend(h, e);
  }

  /** What every layer record holds, whatever the layer class. */
  lemma LayerInfoCommon(l: Layer)
    ensures Lookup(LayerInfo(l).fields, "background") == Some(BackgroundJson(l.background))
    ensures Lookup(LayerInfo(l).fields, "events") == Some(l.events)
    ensures Lookup(LayerInfo(l).fields, "isGeoJson") == Some(JBool(l.kind.GeoJson?))
    ensures Styled(l.kind) ==> Lookup(LayerInfo(l).fields, "options") == Some(JObject(MergedOptions(l)))
    ensures l.kind.Grid? ==> Lookup(LayerInfo(l).fields, "options") == Some(l.kind.parameters)
    ensures l.kind.Plain? || l.kind.AdjustableGrid? ==> Lookup(LayerInfo(l).fields, "options") == Some(FromOMap(l.options))
  {
    var h := Head(BackgroundJson(l.background), OptionsEntry(l), l.kind.GeoJson?, l.events);
    var e := Extras(l);
    HeadFields(BackgroundJson(l.background), OptionsEntry(l), l.kind.GeoJson?, l.events);
    assert LayerInfo(l).fields == h + e;
    LookupAppend(h, e, "background");
    LookupAppend(h, e, "events");
    LookupAppend(h, e, "isGeoJson");
    LookupAppend(h, e, "options");
  }

  /** The entries only one layer class gets. */
  lemma LayerInfoVariant(l: Layer)
    ensures l.kind.GeoJson? ==> Lookup(LayerInfo(l).fields, "json") == Some(l.kind.json)
    ensures l.kind.Circle? ==>
      Lookup(LayerInfo(l).fields, "isCircle") == Some(JBool(true)) &&
      Lookup(LayerInfo(l).fields, "center") == Some(l.kind.center)
    ensures l.kind.Rectangle? ==>
      Lookup(LayerInfo(l).fields, "isRectangle") == Some(JBool(true)) &&
      Lookup(LayerInfo(l).fields, "points") == Some(JArray([l.kind.firstPoint, l.kind.secondPoint]))
    ensures l.kind.Grid? ==> Lookup(LayerInfo(l).fields, "isGrid") == Some(JBool(true))
    ensures l.kind.AdjustableGrid? ==>
      Lookup(LayerInfo(l).fields, "isAdjustableGrid") == Some(JBool(true)) &&
      Lookup(LayerInfo(l).fields, "color") == Some(l.kind.color) &&
      Lookup(LayerInfo(l).fields, "width") == Some(l.kind.weight)
  {
    var h := Head(BackgroundJson(l.background), OptionsEntry(l), l.kind.GeoJson?, l.events);
    var e := Extras(l);
    HeadFields(BackgroundJson(l.background), OptionsEntry(l), l.kind.GeoJson?, l.events);
    ExtrasFields(l);
    assert LayerInfo(l).fields == h + e;
    ExtraKeysFresh(l.kind);
    match l.kind
    case Plain =>
    case GeoJson(_, _) =>
      LookupAppend(h, e, "json");
    case Circle(_, _, _) =>
      LookupAppend(h, e, "isCircle");
      LookupAppend(h, e, "center");
    case Rectangle(_, _, _) =>
      LookupAppend(h, e, "isRectangle");
      LookupAppend(h, e, "points");
    case Grid(_) =>
      LookupAppend(h, e, "isGrid");
    case AdjustableGrid(_, _) =>
      LookupAppend(h, e, "isAdjustableGrid");
      LookupAppend(h, e, "color");
      LookupAppend(h, e, "width");
  }

  /** The `foreach` of `getLayersInfos` with its counter `$n`, over
      elements whose first one sits at index `n`: every element paired with
      its index, except the element at index 0, which is skipped. */
  function Overlays<T>(xs: seq<T>, n: nat): (r: seq<(nat, T)>)
    ensures |r| + (if n == 0 && |xs| > 0 then 1 else 0) == |xs|
    ensures n == 0 ==> forall i :: 0 <= i < |r| ==> r[i] == (i + 1, xs[i + 1])
    ensures n > 0 ==> forall i :: 0 <= i < |r| ==> r[i] == (n + i, xs[i])
    decreases |xs|
  {
    if xs == [] then []
    else
      var t := Overlays(xs[1..], n + 1);
      if n > 0 then [(n, xs[0])] + t else t
  }

  /** Appending an element adds exactly one entry, keyed by its index. */
  lemma OverlaysAppend<T>(xs: seq<T>, x: T)
    requires |xs| >= 1
    ensures Overlays(xs + [x], 0) == Overlays(xs, 0) + [(|xs|, x)]
  {
    var a, b := Overlays(xs + [x], 0), Overlays(xs, 0) + [(|xs|, x)];
    forall i | 0 <= i < |a| ensures a[i] == b[i] {
      if i + 1 < |xs| {
        assert (xs + [x])[i + 1] == xs[i + 1];
      }
    }
  }

  /** The array `getLayersInfos` encodes: one record per overlay, keyed by the
      overlay's index in the layer list. */
  function LayersInfos(layers: seq<Layer>): (r: seq<(nat, Json)>)
    ensures |r| == if |layers| == 0 then 0 else |layers| - 1
    ensures forall i :: 0 <= i < |r| ==> r[i].0 == i + 1 && r[i].1 == LayerInfo(layers[i + 1])
  {
    var o := Overlays(layers, 0);
    seq(|o|, i requires 0 <= i < |o| => (o[i].0, LayerInfo(o[i].1)))
  }

  /** Adding an overlay adds exactly one record, keyed by its index, after
      the existing ones. */
  lemma LayersInfosAppend(layers: seq<Layer>, l: Layer)
    requires |layers| >= 1
    ensures LayersInfos(layers + [l]) == LayersInfos(layers) + [(|layers|, LayerInfo(l))]
  {
    var o, o1 := Overlays(layers, 0), Overlays(layers + [l], 0);
    OverlaysAppend(layers, l);
    var a, c := LayersInfos(layers + [l]), LayersInfos(layers) + [(|layers|, LayerInfo(l))];
    forall i | 0 <= i < |a| ensures a[i] == c[i] {
      if i < |o| {
        assert o1[i] == o[i];
      } else {
        assert o1[i] == (|layers|, l);
      }
    }
  }

  /** `json_encode` of that array: `[]` when there is no overlay, otherwise an
      object whose keys are the overlay indices "1", "2", ... written out. */
  function LayersJson(layers: seq<Layer>): (r: Json)
    ensures r == JArray([]) <==> |layers| <= 1
    ensures |layers| > 1 ==> r.JObject?
    ensures r.JObject? ==> DistinctKeys(r.fields) && |r.fields| == |layers| - 1
    ensures r.JObject? ==> forall i :: 0 <= i < |r.fields| ==>
      r.fields[i] == (NatToString(i + 1), LayerInfo(layers[i + 1]))
  {
    var infos := LayersInfos(layers);
    if |infos| == 0 then JArray([])
    else
      IndexKeysDistinct(|infos|);
      JObject(seq(|infos|, i requires 0 <= i < |infos| => (NatToString(infos[i].0), infos[i].1)))
  }
}
