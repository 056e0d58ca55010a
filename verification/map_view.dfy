/** The interactive map: per-marker interactability, the marker click gate, the camera
    follow rule and the tile-layer table. */
module MapView {
  import opened Wrappers
  import opened Types
  import opened Distances
  import Proximity

  /** The map's default zoom level and style. */
  const DEFAULT_ZOOM: int := 16
  /** A location change smaller than this is not followed by the camera. */
  const SIGNIFICANT_MOVE: real := 5.0
  /** At or above this zoom the camera pans instead of resetting the view. */
  const PAN_ZOOM: int := 14
  /** A manual move within this many milliseconds of an automatic one is not the user's. */
  const AUTO_MOVE_GRACE_MS: int := 1000

  /** Every marker is flagged interactable iff the user is within the interaction
      distance; without a location the recordings are passed through untouched. */
  function MarkInteractable(geo: Geo, observer: Option<LocationData>, recs: seq<AudioRecording>)
    : (out: seq<AudioRecording>)
    ensures observer.None? ==> out == recs
    ensures |out| == |recs|
    ensures forall k :: 0 <= k < |recs| ==> out[k].(isInteractable := recs[k].isInteractable) == recs[k]
    ensures observer.Some? ==> forall k :: 0 <= k < |recs| ==>
      out[k].isInteractable == Some(Proximity.DistanceTo(geo, observer.value, recs[k]) <= INTERACTION_DISTANCE)
  {
    match observer
    case None => recs
    case Some(u) =>
      seq(|recs|, k requires 0 <= k < |recs| =>
        recs[k].(isInteractable := Some(Proximity.DistanceTo(geo, u, recs[k]) <= INTERACTION_DISTANCE)))
  }

  /** Whether a click on the marker reaches the click handler: the flag must be set and
      truthy (an absent flag is falsy) and a handler must be installed. */
  function MarkerClickReachesHandler(rec: AudioRecording, hasHandler: bool): bool {
    rec.isInteractable == Some(true) && hasHandler
  }

  /** A marker click reaches the handler exactly when a handler exists and the user is
      within the interaction distance of that recording. */
  lemma MarkerClickGate(geo: Geo, u: LocationData, recs: seq<AudioRecording>, k: int, hasHandler: bool)
    requires 0 <= k < |recs|
    ensures MarkerClickReachesHandler(MarkInteractable(geo, Some(u), recs)[k], hasHandler)
        <==> hasHandler && Proximity.DistanceTo(geo, u, recs[k]) <= INTERACTION_DISTANCE
  {
  }

  /** Everything the nearby panel has loaded is also unlocked on the map: loading implies
      being within the unload distance, which is the interaction distance. */
  lemma LoadedImpliesUnlockedMarker(geo: Geo, u: LocationData, recs: seq<AudioRecording>, prev: set<string>, k: int)
    requires UniqueIds(recs)
    requires 0 <= k < |recs|
    requires recs[k].id in Proximity.UpdateLoaded(geo, Some(u), recs, prev)
    ensures MarkInteractable(geo, Some(u), recs)[k].isInteractable == Some(true)
  {
    Proximity.LoadedAreWithinUnload(geo, u, recs, prev, k);
  }

  /** A card the panel lets the user play is also unlocked on the map. */
  lemma PlayableCardImpliesUnlockedMarker(geo: Geo, u: LocationData, recs: seq<AudioRecording>, loaded: set<string>, k: int)
    requires Proximity.RenderNearby(geo, Some(u), recs, loaded).Some?
    requires 0 <= k < |Proximity.VisibleRecordings(recs, loaded)|
    requires Proximity.RenderNearby(geo, Some(u), recs, loaded).value[k].isInteractable
    ensures Proximity.DistanceTo(geo, u, Proximity.VisibleRecordings(recs, loaded)[k]) <= INTERACTION_DISTANCE
  {
  }

  /** The camera-related state of the map: whether it follows the user, the location it
      last saw, and when it last moved on its own (milliseconds). */
  datatype Camera = Camera(follow: bool, prev: Option<LocationData>, lastAutoMove: int)

  const InitialCamera := Camera(true, None, 0)

  /** What the map is asked to do after a location change. */
  datatype CameraMove = Stay | PanTo(target: Coord) | SetView(target: Coord, zoom: int)

  /** A change is significant when there was no earlier location or the user moved more
      than five metres from it. */
  predicate IsSignificant(geo: Geo, prev: Option<LocationData>, cur: LocationData) {
    prev.None? || geo(prev.value.Position(), cur.Position()) > SIGNIFICANT_MOVE
  }

  function Max(a: int, b: int): int {
    if a >= b then a else b
  }

  /** The effect run on a new location while the map exists: follow the user when
      following is on and the move is significant, panning when there was an earlier
      location and the map is zoomed in, otherwise setting the view at no less than the
      default zoom; then remember the location. */
  function OnLocation(geo: Geo, cam: Camera, mapReady: bool, location: Option<LocationData>,
                      now: int, zoom: int, defaultZoom: int): (r: (Camera, CameraMove))
    ensures !mapReady || location.None? ==> r == (cam, Stay)
    ensures mapReady && location.Some? ==> r.0.prev == location && r.0.follow == cam.follow
    ensures r.1 != Stay <==> mapReady && location.Some? && cam.follow && IsSignificant(geo, cam.prev, location.value)
    ensures r.1 != Stay ==> r.1.target == location.value.Position() && r.0.lastAutoMove == now
    ensures r.1 == Stay ==> r.0.lastAutoMove == cam.lastAutoMove
    ensures r.1.PanTo? <==> r.1 != Stay && cam.prev.Some? && zoom >= PAN_ZOOM
    ensures r.1.SetView? ==> r.1.zoom >= defaultZoom && r.1.zoom >= zoom && (r.1.zoom == defaultZoom || r.1.zoom == zoom)
  {
    if !mapReady || location.None? then (cam, Stay)
    else
      var cur := location.value;
      var significant := IsSignificant(geo, cam.prev, cur);
      if cam.follow && significant then
        var move := if cam.prev.Some? && zoom >= PAN_ZOOM then PanTo(cur.Position())
                    else SetView(cur.Position(), Max(defaultZoom, zoom));
        (cam.(prev := location, lastAutoMove := now), move)
      else
        (cam.(prev := location), Stay)
  }

  /** A manual move of the map switches following off, unless it started within a second
      of the last automatic move. */
  function OnMoveStart(cam: Camera, now: int): (r: Camera)
    ensures r.prev == cam.prev && r.lastAutoMove == cam.lastAutoMove
    ensures r.follow <==> cam.follow && now - cam.lastAutoMove <= AUTO_MOVE_GRACE_MS
  {
    if now - cam.lastAutoMove > AUTO_MOVE_GRACE_MS then cam.(follow := false) else cam
  }

  /** The events that reach the camera state. */
  datatype MapEvent =
    | LocationChanged(location: Option<LocationData>, now: int, zoom: int)
    | MoveStarted(now: int)

  function Step(geo: Geo, cam: Camera, e: MapEvent, defaultZoom: int): (Camera, CameraMove) {
    match e
    case LocationChanged(loc, now, zoom) => OnLocation(geo, cam, true, loc, now, zoom, defaultZoom)
    case MoveStarted(now) => (OnMoveStart(cam, now), Stay)
  }

  function Replay(geo: Geo, cam: Camera, events: seq<MapEvent>, defaultZoom: int): (Camera, seq<CameraMove>)
    decreases |events|
  {
    if |events| == 0 then (cam, [])
    else
      var (c1, m) := Step(geo, cam, events[0], defaultZoom);
      var (c2, ms) := Replay(geo, c1, events[1..], defaultZoom);
      (c2, [m] + ms)
  }

  /** Nothing switches following back on: once the user has moved the map away, no later
      location or move event makes the camera move. */
  lemma {:induction false} UnfollowedCameraStays(geo: Geo, cam: Camera, events: seq<MapEvent>, defaultZoom: int)
    requires !cam.follow
    ensures !Replay(geo, cam, events, defaultZoom).0.follow
    ensures forall k :: 0 <= k < |Replay(geo, cam, events, defaultZoom).1| ==> Replay(geo, cam, events, defaultZoom).1[k] == Stay
    ensures |Replay(geo, cam, events, defaultZoom).1| == |events|
    decreases |events|
  {
    if |events| > 0 {
      var (c1, m) := Step(geo, cam, events[0], defaultZoom);
      UnfollowedCameraStays(geo, c1, events[1..], defaultZoom);
    }
  }

  /** The camera's own move does not switch following off: a move start within a second
      of an automatic move keeps following. */
  lemma AutoMoveKeepsFollowing(geo: Geo, cam: Camera, loc: LocationData, now: int, zoom: int, defaultZoom: int, later: int)
    requires cam.follow && IsSignificant(geo, cam.prev, loc)
    requires now <= later <= now + AUTO_MOVE_GRACE_MS
    ensures OnMoveStart(OnLocation(geo, cam, true, Some(loc), now, zoom, defaultZoom).0, later).follow
  {
  }

  /** The first reading after the map appears, with the map's own default zoom: there is
      no earlier location, so the camera sets the view at the default zoom or closer,
      keeps following and remembers the reading. The home page passes 15 instead of the
      default. */
  lemma FirstLocationSetsView(geo: Geo, loc: LocationData, now: int, zoom: int)
    ensures OnLocation(geo, InitialCamera, true, Some(loc), now, zoom, DEFAULT_ZOOM)
         == (Camera(true, Some(loc), now), SetView(loc.Position(), Max(DEFAULT_ZOOM, zoom)))
  {
  }

  /** The tile styles the map offers. */
  datatype MapStyle = Default | Minimal | Satellite | Terrain | Dark | Green | Blue

  const DEFAULT_STYLE: MapStyle := Green

  /** The tile servers the styles draw from. */
  datatype TileServer = OpenStreetMap | CartoLight | CartoDark | CartoVoyager | ArcgisImagery | OpenTopoMap

  /** The URL template of each tile server. */
  function ServerUrl(server: TileServer): string {
    match server
    case OpenStreetMap => "https://{s}.tile.openstreetmap.org/{z}/{x}/{y}.png"
    case CartoLight => "https://{s}.basemaps.cartocdn.com/light_all/{z}/{x}/{y}{r}.png"
    case CartoDark => "https://{s}.basemaps.cartocdn.com/dark_all/{z}/{x}/{y}{r}.png"
    case CartoVoyager => "https://{s}.basemaps.cartocdn.com/rastertiles/voyager/{z}/{x}/{y}{r}.png"
    case ArcgisImagery => "https://server.arcgisonline.com/ArcGIS/rest/services/World_Imagery/MapServer/tile/{z}/{y}/{x}"
    case OpenTopoMap => "https://{s}.tile.opentopomap.org/{z}/{x}/{y}.png"
  }

  datatype TileConfig = TileConfig(server: TileServer, subdomains: Option<string>, maxZoom: nat, filter: Option<string>)

  const GREEN_FILTER: string := "hue-rotate(90deg) saturate(1.2) brightness(0.9)"
  const BLUE_FILTER: string := "hue-rotate(200deg) saturate(1.3) brightness(0.85)"

  /** The tile source of each style; attributions are left out. Blue tints the light
      Carto tiles that Minimal shows plain. */
  function TileLayerConfig(style: MapStyle): (c: TileConfig)
    ensures c.maxZoom == 17 <==> style == Terrain
    ensures c.maxZoom == 19 <==> style == Default
    ensures c.maxZoom == 20 <==> style != Terrain && style != Default
    ensures c.filter.Some? <==> style == Green || style == Blue
    ensures c.filter.Some? ==> c.filter.value != ""
    ensures c.subdomains.Some? <==> c.server.CartoLight? || c.server.CartoDark? || c.server.CartoVoyager?
    ensures c.server == CartoLight <==> style == Minimal || style == Blue
  {
    match style
    case Minimal => TileConfig(CartoLight, Some("abcd"), 20, None)
    case Dark => TileConfig(CartoDark, Some("abcd"), 20, None)
    case Green => TileConfig(CartoVoyager, Some("abcd"), 20, Some(GREEN_FILTER))
    case Blue => TileConfig(CartoLight, Some("abcd"), 20, Some(BLUE_FILTER))
    case Satellite => TileConfig(ArcgisImagery, None, 20, None)
    case Terrain => TileConfig(OpenTopoMap, None, 17, None)
    case Default => TileConfig(OpenStreetMap, None, 19, None)
  }

  /** The default style shows the Voyager tiles tinted green. */
  lemma DefaultStyleIsGreenVoyager()
    ensures TileLayerConfig(DEFAULT_STYLE).server == CartoVoyager
    ensures TilePaneFilter(DEFAULT_STYLE) == GREEN_FILTER
  {
  }

  /** The CSS filter the tile pane ends up with: the style's filter, or none. */
  function TilePaneFilter(style: MapStyle): (f: string)
    ensures f != "" <==> style == Green || style == Blue
    ensures f != "" ==> Some(f) == TileLayerConfig(style).filter
  {
    var c := TileLayerConfig(style);
    if c.filter.Some? then c.filter.value else ""
  }
}
