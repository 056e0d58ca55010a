/** The home page: it loads the moderated recordings from the database, walks the
    visitor from the hero screen through the permission dialog into the app, and refuses
    to show anything but a notice on wide screens. */
module Home {
  import opened Wrappers
  import opened Types
  import Geolocation
  import Capture

  /** A stored upload as the database returns it. */
  datatype DbAudioRow = DbAudioRow(
    id: string,
    created_at: string,
    audioname: string,
    audio_url: string,
    coordinateX: real,
    coordinateY: real,
    description: Option<string>)

  /** One stored row as a recording: the name becomes the title and, as written, the
      stored X coordinate becomes the latitude and Y the longitude. */
  function ToRecording(row: DbAudioRow): (r: AudioRecording)
    ensures r.id == row.id && r.createdAt == row.created_at && r.audioUrl == row.audio_url
    ensures r.title == Some(row.audioname) && r.description == row.description
    ensures r.latitude == row.coordinateX && r.longitude == row.coordinateY
    ensures r.isInteractable.None? && r.themes.None?
  {
    AudioRecording(row.id, row.created_at, Some(row.audioname), row.audio_url,
                   row.coordinateX, row.coordinateY, row.description, None, None)
  }

  /** The list mapping keeps count and order. */
  function MapRows(rows: seq<DbAudioRow>): (recs: seq<AudioRecording>)
    ensures |recs| == |rows|
    ensures forall i :: 0 <= i < |rows| ==> recs[i] == ToRecording(rows[i])
  {
    seq(|rows|, i requires 0 <= i < |rows| => ToRecording(rows[i]))
  }

  /** The recordings carry exactly the rows' ids, so distinct keys stay distinct. */
  lemma MapRowsKeepsIds(rows: seq<DbAudioRow>)
    ensures IdsOf(MapRows(rows)) == set r | r in rows :: r.id
    ensures (forall i, j :: 0 <= i < j < |rows| ==> rows[i].id != rows[j].id) ==> UniqueIds(MapRows(rows))
  {
    var recs := MapRows(rows);
    forall x | x in IdsOf(recs) ensures x in set r | r in rows :: r.id {
      var rec :| rec in recs && rec.id == x;
      var i :| 0 <= i < |recs| && recs[i] == rec;
      assert rows[i].id == x;
    }
    forall x | x in set r | r in rows :: r.id ensures x in IdsOf(recs) {
      var row :| row in rows && row.id == x;
      var i :| 0 <= i < |rows| && rows[i] == row;
      assert recs[i].id == x;
    }
  }

  /** What the moderated-uploads query produced. */
  datatype Fetched =
    | Nothing                         // a falsy value
    | NotRows                         // a value that is not a list
    | Rows(rows: seq<DbAudioRow>)
    | FetchThrew

  /** The recordings after the initial load: a falsy result or a failure keeps what was
      there; a non-list result empties the list. */
  function Loaded(current: seq<AudioRecording>, fetched: Fetched): (recs: seq<AudioRecording>)
    ensures fetched.Nothing? || fetched.FetchThrew? ==> recs == current
    ensures fetched.NotRows? ==> recs == []
    ensures fetched.Rows? ==> recs == MapRows(fetched.rows) && |recs| == |fetched.rows|
  {
    match fetched
    case Nothing => current
    case NotRows => []
    case Rows(rows) => MapRows(rows)
    case FetchThrew => current
  }

  /** The write side stores longitude as X and latitude as Y; the read side takes X as the
      latitude. A recording saved at a position therefore reads back with its coordinates
      exchanged. */
  lemma StoredCoordinatesSwap(fileName: string, url: Option<string>, at: Coord,
                              category: Capture.Category, row: DbAudioRow)
    requires var written := Capture.RowFor(fileName, url, Some(at), category);
      Some(row.coordinateX) == written.coordinateX && Some(row.coordinateY) == written.coordinateY
    ensures ToRecording(row).latitude == at.longitude
    ensures ToRecording(row).longitude == at.latitude
  {
  }

  /** The page's top-level view. */
  datatype View = Hero | Permissions | App

  /** `isMobile` is the width hook's state: false until the first measurement, then
      whether the last measured window was narrow enough. */
  datatype Page = Page(
    isMobile: bool,
    view: View,
    permissionOpen: bool,
    voiceOpen: bool,
    selected: Option<AudioRecording>,
    location: Geolocation.LocState)

  const Initial: Page := Page(false, Hero, false, false, None, Geolocation.Initial)

  /** Granting closes the dialog, enters the app and asks for a position straight away. */
  function PermissionsGranted(p: Page, supported: bool): (r: Page)
    ensures !r.permissionOpen && r.view == App
    ensures r.location == Geolocation.GetCurrentPosition(p.location, supported)
    ensures r.voiceOpen == p.voiceOpen && r.selected == p.selected && r.isMobile == p.isMobile
  {
    p.(permissionOpen := false, view := App, location := Geolocation.GetCurrentPosition(p.location, supported))
  }

  const MOBILE_MAX_WIDTH: int := 768

  /** A window counts as mobile up to and including 768 pixels wide. */
  predicate IsMobile(innerWidth: int) {
    innerWidth <= MOBILE_MAX_WIDTH
  }

  /** `Measured` is the width hook reading the window: once on mount and again on every
      resize. */
  datatype Event =
    | Measured(innerWidth: int)
    | TestService
    | Granted(supported: bool)
    | PermissionClosed
    | VoiceOpened
    | VoiceClosed
    | RecordingClicked(recording: AudioRecording)
    | SelectionClosed

  function Apply(p: Page, e: Event): (r: Page)
    ensures r.view == p.view || r.view == App
    ensures r.view == App && p.view != App ==> e.Granted?
    ensures r.isMobile == if e.Measured? then IsMobile(e.innerWidth) else p.isMobile
  {
    match e
    case Measured(w) => p.(isMobile := IsMobile(w))
    case TestService => p.(permissionOpen := true)
    case Granted(sup) => PermissionsGranted(p, sup)
    case PermissionClosed => p.(permissionOpen := false)
    case VoiceOpened => p.(voiceOpen := true)
    case VoiceClosed => p.(voiceOpen := false)
    case RecordingClicked(rec) => p.(selected := Some(rec))
    case SelectionClosed => p.(selected := None)
  }

  function ApplyAll(p: Page, events: seq<Event>): Page
    decreases |events|
  {
    if |events| == 0 then p else ApplyAll(Apply(p, events[0]), events[1..])
  }

  /** No handler leads back to the hero screen, and the app is only ever entered through
      a grant: a run from the hero screen is still there unless some event granted. */
  lemma {:induction false} NoWayBackToHero(p: Page, events: seq<Event>)
    ensures p.view == App ==> ApplyAll(p, events).view == App
    ensures ApplyAll(p, events).view == Hero ==> p.view == Hero
    ensures p.view == Hero && (forall i :: 0 <= i < |events| ==> !events[i].Granted?) ==>
      ApplyAll(p, events).view == Hero
    decreases |events|
  {
    if |events| > 0 {
      NoWayBackToHero(Apply(p, events[0]), events[1..]);
      if p.view == Hero && (forall i :: 0 <= i < |events| ==> !events[i].Granted?) {
        assert !events[0].Granted?;
        assert forall i :: 0 <= i < |events[1..]| ==> !events[1..][i].Granted? by {
          forall i | 0 <= i < |events[1..]| ensures !events[1..][i].Granted? {
            assert events[1..][i] == events[i + 1];
          }
        }
      }
    }
  }

  /** What the page renders. */
  datatype Screen = WideScreenNotice | HeroScreen(permissionDialog: bool) | AppScreen

  /** The notice is shown whenever the hook's state is not mobile, which includes the
      first render before any measurement. */
  function ScreenFor(p: Page): (s: Screen)
    ensures s == WideScreenNotice <==> !p.isMobile
    ensures s.HeroScreen? <==> p.isMobile && p.view == Hero
    ensures s.HeroScreen? ==> s.permissionDialog == p.permissionOpen
    ensures s == AppScreen <==> p.isMobile && p.view != Hero
  {
    if !p.isMobile then WideScreenNotice
    else if p.view == Hero then HeroScreen(p.permissionOpen)
    else AppScreen
  }

  /** The width the last measurement of a run read, if the run measured at all. */
  function LatestWidth(events: seq<Event>): (w: Option<int>)
    ensures w.None? <==> forall i :: 0 <= i < |events| ==> !events[i].Measured?
    ensures w.Some? ==> exists i :: (0 <= i < |events| && events[i] == Measured(w.value) &&
                                     forall j :: i < j < |events| ==> !events[j].Measured?)
    decreases |events|
  {
    if |events| == 0 then None
    else
      var later := LatestWidth(events[1..]);
      if later.Some? then
        ghost var i :| (0 <= i < |events[1..]| && events[1..][i] == Measured(later.value) &&
                        forall j :: i < j < |events[1..]| ==> !events[1..][j].Measured?);
        assert events[i + 1] == Measured(later.value);
        assert forall j :: i + 1 < j < |events| ==> events[j] == events[1..][j - 1];
        later
      else
        assert forall i :: 1 <= i < |events| ==> events[i] == events[1..][i - 1];
        if events[0].Measured? then Some(events[0].innerWidth) else None
  }

  /** Whether the page counts as mobile after a run is decided by the run's last
      measurement; a run without one keeps the state it started from. */
  lemma {:induction false} LatestMeasurementDecides(p: Page, events: seq<Event>)
    ensures ApplyAll(p, events).isMobile ==
      match LatestWidth(events)
      case None => p.isMobile
      case Some(w) => IsMobile(w)
    decreases |events|
  {
    if |events| > 0 {
      LatestMeasurementDecides(Apply(p, events[0]), events[1..]);
    }
  }

  /** From page load, the hero or the app is shown only after a measurement, and exactly
      when the last measured window was at most 768 pixels wide; a run whose measurements
      were all wide, or that has none, shows nothing but the notice. */
  lemma WideScreenAlwaysNotice(events: seq<Event>)
    ensures ScreenFor(Initial) == WideScreenNotice
    ensures ScreenFor(ApplyAll(Initial, events)) != WideScreenNotice <==>
      LatestWidth(events).Some? && IsMobile(LatestWidth(events).value)
    ensures (forall i :: 0 <= i < |events| && events[i].Measured? ==> !IsMobile(events[i].innerWidth)) ==>
      ScreenFor(ApplyAll(Initial, events)) == WideScreenNotice
  {
    LatestMeasurementDecides(Initial, events);
  }
}
