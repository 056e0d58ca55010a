/** The location hook (and its copy in the GPS panel): a single-shot read, a continuous
    watch, a guarded stop, and the mapping from error codes to messages. The browser's
    geolocation service is a collaborator whose live watch subscriptions are tracked. */
module Geolocation {
  import opened Wrappers
  import opened Types

  /** Error codes of the W3C Geolocation API. */
  const PERMISSION_DENIED: int := 1
  const POSITION_UNAVAILABLE: int := 2
  const TIMEOUT: int := 3

  const NOT_SUPPORTED: string := "Geolocation is not supported by this browser"
  const DENIED_MESSAGE: string := "Location access denied by user"
  const UNAVAILABLE_MESSAGE: string := "Location information unavailable"
  const TIMEOUT_MESSAGE: string := "Location request timed out"
  const GET_FAILED: string := "Failed to get location"
  const WATCH_FAILED: string := "Failed to watch location"

  /** Which acquisition failed: the single-shot read or the watch. */
  datatype Mode = Single | Watch

  /** The message for a failed acquisition: the three known codes have fixed messages,
      anything else keeps the mode's default. */
  function ErrorMessage(code: int, mode: Mode): (msg: string)
    ensures code == PERMISSION_DENIED ==> msg == DENIED_MESSAGE
    ensures code == POSITION_UNAVAILABLE ==> msg == UNAVAILABLE_MESSAGE
    ensures code == TIMEOUT ==> msg == TIMEOUT_MESSAGE
    ensures code !in {PERMISSION_DENIED, POSITION_UNAVAILABLE, TIMEOUT} ==>
      msg == (if mode == Single then GET_FAILED else WATCH_FAILED)
  {
    if code == PERMISSION_DENIED then DENIED_MESSAGE
    else if code == POSITION_UNAVAILABLE then UNAVAILABLE_MESSAGE
    else if code == TIMEOUT then TIMEOUT_MESSAGE
    else if mode == Single then GET_FAILED
    else WATCH_FAILED
  }

  /** Which error a message reports, as far as the message tells. */
  function MessageCode(msg: string): Option<int> {
    if msg == DENIED_MESSAGE then Some(PERMISSION_DENIED)
    else if msg == UNAVAILABLE_MESSAGE then Some(POSITION_UNAVAILABLE)
    else if msg == TIMEOUT_MESSAGE then Some(TIMEOUT)
    else None
  }

  /** The messages tell the known codes apart, in either mode, and no unknown code is
      mistaken for a known one. */
  lemma ErrorMessageRoundTrip(code: int, mode: Mode)
    ensures MessageCode(ErrorMessage(code, mode)) ==
      (if code in {PERMISSION_DENIED, POSITION_UNAVAILABLE, TIMEOUT} then Some(code) else None)
  {
  }

  /** A reading delivered by the browser: coordinates with extra fields the hook ignores. */
  datatype Reading = Reading(
    latitude: real,
    longitude: real,
    accuracy: real,
    altitude: Option<real>,
    heading: Option<real>,
    speed: Option<real>,
    timestamp: int)

  /** The stored location: exactly the four fields the hook keeps. */
  function ToLocation(p: Reading): (l: LocationData)
    ensures l.latitude == p.latitude && l.longitude == p.longitude
    ensures l.accuracy == p.accuracy && l.timestamp == p.timestamp
  {
    LocationData(p.latitude, p.longitude, p.accuracy, p.timestamp)
  }

  /** The hook's state, plus the watch subscriptions live in the browser. */
  datatype LocState = LocState(
    location: Option<LocationData>,
    error: Option<string>,
    isLoading: bool,
    watchId: Option<int>,
    isWatching: bool,
    liveWatches: set<int>)

  const Initial: LocState := LocState(None, None, false, None, false, {})

  /** The watch ids the hook still knows about. */
  function Known(s: LocState): set<int> {
    if s.watchId.Some? then {s.watchId.value} else {}
  }

  /** At most one live subscription, and it is the one the hook holds; watching implies
      holding a watch id. */
  predicate Tidy(s: LocState) {
    && s.liveWatches <= Known(s)
    && (s.isWatching ==> s.watchId.Some?)
  }

  /** Single-shot request: without support only the error is set; otherwise loading starts
      and the error is cleared. */
  function GetCurrentPosition(s: LocState, supported: bool): (r: LocState)
    ensures !supported ==> r == s.(error := Some(NOT_SUPPORTED))
    ensures supported ==> r == s.(isLoading := true, error := None)
  {
    if !supported then s.(error := Some(NOT_SUPPORTED)) else s.(isLoading := true, error := None)
  }

  /** The single-shot read succeeded: the location is replaced and loading ends. */
  function PositionReceived(s: LocState, p: Reading): (r: LocState)
    ensures r.location == Some(ToLocation(p)) && !r.isLoading
    ensures r.(location := s.location, isLoading := s.isLoading) == s
  {
    s.(location := Some(ToLocation(p)), isLoading := false)
  }

  /** The single-shot read failed: the mapped message is shown and loading ends. */
  function PositionFailed(s: LocState, code: int): (r: LocState)
    ensures r.error == Some(ErrorMessage(code, Single)) && !r.isLoading
    ensures r.(error := s.error, isLoading := s.isLoading) == s
  {
    s.(error := Some(ErrorMessage(code, Single)), isLoading := false)
  }

  /** The effect on a change of the held watch id: the previous subscription is
      cleared. */
  function WatchIdChanged(s: LocState, prior: Option<int>): LocState {
    if prior.Some? && s.watchId != prior then s.(liveWatches := s.liveWatches - {prior.value}) else s
  }

  /** Start watching: without support only the error is set. Otherwise the error is
      cleared, watching is on, the browser opens subscription `id`, the hook holds it, and
      the effect on the id change closes the previously held one. */
  function StartWatching(s: LocState, supported: bool, id: int): (r: LocState)
    ensures !supported ==> r == s.(error := Some(NOT_SUPPORTED))
    ensures supported ==>
      && r.error == None && r.isWatching && r.watchId == Some(id) && id in r.liveWatches
      && r.location == s.location && r.isLoading == s.isLoading
      && (s.watchId.Some? && s.watchId.value != id ==> s.watchId.value !in r.liveWatches)
    ensures Tidy(s) ==> Tidy(r)
  {
    if !supported then s.(error := Some(NOT_SUPPORTED))
    else
      var subscribed := s.(error := None, isWatching := true, liveWatches := s.liveWatches + {id}, watchId := Some(id));
      WatchIdChanged(subscribed, s.watchId)
  }

  /** A reading from subscription `id`: only a live subscription delivers, and it replaces
      the location wholesale. */
  function WatchReading(s: LocState, id: int, p: Reading): (r: LocState)
    ensures id in s.liveWatches ==> r == s.(location := Some(ToLocation(p)))
    ensures id !in s.liveWatches ==> r == s
  {
    if id in s.liveWatches then s.(location := Some(ToLocation(p))) else s
  }

  /** An error from subscription `id`: the mapped message is shown and watching is off;
      the watch id is kept and the subscription stays live. */
  function WatchFailed(s: LocState, id: int, code: int): (r: LocState)
    ensures id in s.liveWatches ==>
      r == s.(error := Some(ErrorMessage(code, Watch)), isWatching := false)
    ensures id !in s.liveWatches ==> r == s
  {
    if id in s.liveWatches then s.(error := Some(ErrorMessage(code, Watch)), isWatching := false) else s
  }

  /** Stop watching: nothing without a held watch id; otherwise its subscription is
      cleared and the hook forgets it. */
  function StopWatching(s: LocState): (r: LocState)
    ensures s.watchId.None? ==> r == s
    ensures s.watchId.Some? ==>
      && r.watchId == None && !r.isWatching
      && r.liveWatches == s.liveWatches - {s.watchId.value}
      && r.location == s.location && r.error == s.error && r.isLoading == s.isLoading
    ensures Tidy(s) ==> r.liveWatches == {}
  {
    match s.watchId
    case None => s
    case Some(id) =>
      var cleared := s.(liveWatches := s.liveWatches - {id}, watchId := None, isWatching := false);
      WatchIdChanged(cleared, s.watchId)
  }

  /** The GPS panel's clear: location and error are emptied, and the watch is stopped only
      when the panel believes it is watching. */
  function ClearLocation(s: LocState): (r: LocState)
    ensures r.location == None && r.error == None
    ensures s.isWatching ==> r == StopWatching(s).(location := None, error := None)
    ensures !s.isWatching ==> r == s.(location := None, error := None)
  {
    var emptied := s.(location := None, error := None);
    if s.isWatching then StopWatching(emptied) else emptied
  }

  datatype Event =
    | GetPressed(supported: bool)
    | Received(reading: Reading)
    | Failed(code: int)
    | WatchPressed(supported: bool, id: int)
    | WatchUpdate(id: int, reading: Reading)
    | WatchError(id: int, code: int)
    | StopPressed
    | ClearPressed

  function Apply(s: LocState, e: Event): LocState {
    match e
    case GetPressed(sup) => GetCurrentPosition(s, sup)
    case Received(p) => PositionReceived(s, p)
    case Failed(c) => PositionFailed(s, c)
    case WatchPressed(sup, id) => StartWatching(s, sup, id)
    case WatchUpdate(id, p) => WatchReading(s, id, p)
    case WatchError(id, c) => WatchFailed(s, id, c)
    case StopPressed => StopWatching(s)
    case ClearPressed => ClearLocation(s)
  }

  function ApplyAll(s: LocState, events: seq<Event>): LocState
    decreases |events|
  {
    if |events| == 0 then s else ApplyAll(Apply(s, events[0]), events[1..])
  }

  lemma ApplyKeepsTidy(s: LocState, e: Event)
    requires Tidy(s)
    ensures Tidy(Apply(s, e))
  {
  }

  /** Whatever the user and the browser do, at most one watch subscription is live, and it
      is the one the hook holds; after a stop none is. */
  lemma {:induction false} RunKeepsTidy(s: LocState, events: seq<Event>)
    requires Tidy(s)
    ensures Tidy(ApplyAll(s, events))
    ensures |ApplyAll(s, events).liveWatches| <= 1
    decreases |events|
  {
    if |events| > 0 {
      ApplyKeepsTidy(s, events[0]);
      RunKeepsTidy(Apply(s, events[0]), events[1..]);
    } else if s.watchId.None? {
      assert s.liveWatches == {};
    } else if s.watchId.value in s.liveWatches {
      assert s.liveWatches == {s.watchId.value};
    } else {
      assert s.liveWatches == {};
    }
  }

  /** A watch error does not end the subscription: a clear while not watching leaves it
      live, and its next reading brings the location back. */
  lemma WatchSurvivesError(s: LocState, id: int, code: int, p: Reading)
    requires s.watchId == Some(id) && id in s.liveWatches
    ensures var cleared := ClearLocation(WatchFailed(s, id, code));
      && cleared.location == None
      && WatchReading(cleared, id, p).location == Some(ToLocation(p))
  {
  }
}
