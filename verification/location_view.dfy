/** What the GPS panel and the location controls show for a location state: coordinate
    hemispheres, the status badge, and which buttons are offered or enabled. */
module LocationView {
  import opened Wrappers
  import opened Types
  import Geolocation

  /** A coordinate as printed: its magnitude and a hemisphere letter. */
  datatype Printed = Printed(magnitude: real, direction: char)

  /** Latitudes read N/S and longitudes E/W; zero counts as north or east. */
  function FormatCoordinate(coord: real, isLatitude: bool): (p: Printed)
    ensures p.magnitude >= 0.0
    ensures p.magnitude == coord || p.magnitude == -coord
    ensures isLatitude ==> p.direction == (if coord >= 0.0 then 'N' else 'S')
    ensures !isLatitude ==> p.direction == (if coord >= 0.0 then 'E' else 'W')
  {
    var magnitude := if coord >= 0.0 then coord else -coord;
    var direction := if isLatitude then (if coord >= 0.0 then 'N' else 'S')
                     else (if coord >= 0.0 then 'E' else 'W');
    Printed(magnitude, direction)
  }

  /** Reading a printed coordinate back as a signed number. */
  function SignedValue(p: Printed): real {
    if p.direction == 'S' || p.direction == 'W' then -p.magnitude else p.magnitude
  }

  /** The printed form loses nothing: its magnitude and letter give back the coordinate. */
  lemma FormatCoordinateRoundTrip(coord: real, isLatitude: bool)
    ensures SignedValue(FormatCoordinate(coord, isLatitude)) == coord
  {
  }

  /** The badge: watching outranks having a location, which outranks having none. */
  datatype Status = Watching | Located | NoData

  function StatusOf(isWatching: bool, location: Option<LocationData>): (st: Status)
    ensures st == Watching <==> isWatching
    ensures st == Located <==> !isWatching && location.Some?
    ensures st == NoData <==> !isWatching && location.None?
  {
    if isWatching then Watching else if location.Some? then Located else NoData
  }

  /** The GPS panel's badge text. */
  function PanelLabel(st: Status): string {
    match st
    case Watching => "Watching Location..."
    case Located => "Location Available"
    case NoData => "No Location Data"
  }

  /** The location controls' badge text. */
  function ControlsLabel(st: Status): string {
    match st
    case Watching => "Tracking"
    case Located => "Located"
    case NoData => "No GPS"
  }

  /** Each badge text names one status: distinct statuses never share a label, in either
      component. */
  lemma LabelsDistinguishStatus(a: Status, b: Status)
    ensures PanelLabel(a) == PanelLabel(b) <==> a == b
    ensures ControlsLabel(a) == ControlsLabel(b) <==> a == b
  {
  }

  /** The watch button offered: start tracking, or stop. */
  datatype WatchButton = Track | Stop

  /** The controls offered for a state. `hasClear` says whether the parent passed a clear
      handler (the GPS panel always has one). */
  datatype Controls = Controls(
    getDisabled: bool,
    getting: bool,
    watchButton: WatchButton,
    clearShown: bool,
    errorShown: bool,
    detailsShown: bool)

  function ControlsFor(location: Option<LocationData>, error: Option<string>, isLoading: bool,
                       isWatching: bool, hasClear: bool): (c: Controls)
    ensures c.getDisabled <==> isLoading || isWatching
    ensures c.getting <==> isLoading
    ensures c.watchButton == Track <==> !isWatching
    ensures c.clearShown <==> location.Some? && hasClear
    ensures c.errorShown <==> error.Some? && error.value != ""
    ensures c.detailsShown <==> location.Some?
  {
    Controls(
      isLoading || isWatching,
      isLoading,
      if isWatching then Stop else Track,
      location.Some? && hasClear,
      error.Some? && error.value != "",
      location.Some?)
  }

  /** The GPS panel's hint to press a button shows only when there is nothing else to see:
      no location, no error text and no request in flight. */
  function HintShown(location: Option<LocationData>, error: Option<string>, isLoading: bool): (b: bool)
    ensures b ==> !ControlsFor(location, error, isLoading, false, true).detailsShown
    ensures b ==> !ControlsFor(location, error, isLoading, false, true).errorShown
    ensures b <==> location.None? && (error.None? || error.value == "") && !isLoading
  {
    location.None? && (error.None? || error.value == "") && !isLoading
  }

  /** The offered controls agree with one another: whenever Get Location is enabled the
      Track button is offered, and Clear only appears next to the coordinates it clears. */
  lemma ControlsConsistent(location: Option<LocationData>, error: Option<string>, isLoading: bool,
                           isWatching: bool, hasClear: bool)
    ensures var c := ControlsFor(location, error, isLoading, isWatching, hasClear);
      && (!c.getDisabled ==> c.watchButton == Track)
      && (c.clearShown ==> c.detailsShown)
  {
  }

  /** After the GPS panel's Clear the badge reads "No Location Data": the location is gone
      and, because a watching hook always holds a watch id, the stop really happens. */
  lemma ClearShowsNoData(s: Geolocation.LocState)
    requires Geolocation.Tidy(s)
    ensures var r := Geolocation.ClearLocation(s);
      && StatusOf(r.isWatching, r.location) == NoData
      && PanelLabel(StatusOf(r.isWatching, r.location)) == "No Location Data"
      && !ControlsFor(r.location, r.error, r.isLoading, r.isWatching, true).clearShown
  {
  }
}
