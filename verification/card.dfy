/** A recording card: a lazily created audio handle gated on interactability, its
    events, and the card's text and progress helpers. */
module Card {
  import opened Wrappers
  import opened Types

  const TOO_FAR_ERROR: string := "Gå närmare för att lyssna"
  const LOAD_ERROR: string := "Kunde inte ladda ljudfilen"
  const PLAY_ERROR: string := "Kunde inte spela upp ljudet"
  const NO_DESCRIPTION: string := "Ingen beskrivning"
  const DESCRIPTION_LIMIT: nat := 16
  const ELLIPSIS: string := "..."

  /** The card's state. `handle` is the audio element's source once created; `created`
      counts the audio elements the card has created. */
  datatype CardState = CardState(
    handle: Option<string>,
    created: nat,
    isPlaying: bool,
    isLoading: bool,
    currentTime: real,
    duration: real,
    error: Option<string>)

  const Initial: CardState := CardState(None, 0, false, false, 0.0, 0.0, None)

  /** The play/pause handler. Out of range it only reports that the user must come closer.
      The first permitted press creates the audio element and plays it; later presses
      pause it when playing and play it again otherwise. `resolves` says whether the
      element's `play()` succeeded. */
  function HandlePlayPause(c: CardState, interactable: bool, audioUrl: string, resolves: bool): (r: CardState)
    ensures !interactable ==> r == c.(error := Some(TOO_FAR_ERROR))
    ensures interactable && c.handle.None? ==>
      && r.handle == Some(audioUrl) && r.created == c.created + 1
      && (resolves ==> r.isPlaying && r.isLoading && r.error == None)
      && (!resolves ==> r.isPlaying == c.isPlaying && !r.isLoading && r.error == Some(PLAY_ERROR))
    ensures interactable && c.handle.Some? ==> r.handle == c.handle && r.created == c.created
    ensures interactable && c.handle.Some? && c.isPlaying ==> r == c.(isPlaying := false)
    ensures interactable && c.handle.Some? && !c.isPlaying ==>
      r == (if resolves then c.(isPlaying := true) else c.(error := Some(PLAY_ERROR)))
  {
    if !interactable then c.(error := Some(TOO_FAR_ERROR))
    else if c.handle.None? then
      var loading := c.(isLoading := true, error := None, handle := Some(audioUrl), created := c.created + 1);
      if resolves then loading.(isPlaying := true) else loading.(error := Some(PLAY_ERROR), isLoading := false)
    else if c.isPlaying then c.(isPlaying := false)
    else if resolves then c.(isPlaying := true)
    else c.(error := Some(PLAY_ERROR))
  }

  /** The play button is disabled while loading. */
  function PressPlay(c: CardState, interactable: bool, audioUrl: string, resolves: bool): (r: CardState)
    ensures c.isLoading ==> r == c
    ensures !c.isLoading ==> r == HandlePlayPause(c, interactable, audioUrl, resolves)
  {
    if c.isLoading then c else HandlePlayPause(c, interactable, audioUrl, resolves)
  }

  /** Metadata arrived: the duration is known and loading is over. */
  function LoadedMetadata(c: CardState, duration: real): (r: CardState)
    ensures r == c.(duration := duration, isLoading := false)
  {
    c.(duration := duration, isLoading := false)
  }

  function TimeUpdate(c: CardState, t: real): (r: CardState)
    ensures r == c.(currentTime := t)
  {
    c.(currentTime := t)
  }

  /** Playback reached the end: not playing, back at the start. */
  function Ended(c: CardState): (r: CardState)
    ensures !r.isPlaying && r.currentTime == 0.0
    ensures r.(isPlaying := c.isPlaying, currentTime := c.currentTime) == c
  {
    c.(isPlaying := false, currentTime := 0.0)
  }

  /** The element failed to load: loading is over and the load error is shown. */
  function LoadError(c: CardState): (r: CardState)
    ensures !r.isLoading && r.error == Some(LOAD_ERROR)
    ensures r.(isLoading := c.isLoading, error := c.error) == c
  {
    c.(error := Some(LOAD_ERROR), isLoading := false)
  }

  /** The effect on a change of the interactability prop: going out of range with an
      element pauses it. */
  function InteractabilityChanged(c: CardState, interactable: bool): (r: CardState)
    ensures !interactable && c.handle.Some? ==> r == c.(isPlaying := false)
    ensures interactable || c.handle.None? ==> r == c
  {
    if !interactable && c.handle.Some? then c.(isPlaying := false) else c
  }

  datatype Event =
    | Press(interactable: bool, resolves: bool)
    | Metadata(duration: real)
    | Progress(time: real)
    | PlaybackEnded
    | PlaybackFailed
    | RangeChanged(interactable: bool)

  function Apply(c: CardState, audioUrl: string, e: Event): CardState {
    match e
    case Press(i, ok) => PressPlay(c, i, audioUrl, ok)
    case Metadata(d) => LoadedMetadata(c, d)
    case Progress(t) => TimeUpdate(c, t)
    case PlaybackEnded => Ended(c)
    case PlaybackFailed => LoadError(c)
    case RangeChanged(i) => InteractabilityChanged(c, i)
  }

  function ApplyAll(c: CardState, audioUrl: string, events: seq<Event>): CardState
    decreases |events|
  {
    if |events| == 0 then c else ApplyAll(Apply(c, audioUrl, events[0]), audioUrl, events[1..])
  }

  /** The card owns a single audio element: it creates at most one, for its own
      recording, and only playing requires one. */
  predicate SingleHandle(c: CardState, audioUrl: string) {
    && c.created <= 1
    && (c.created == 1 <==> c.handle.Some?)
    && (c.handle.Some? ==> c.handle.value == audioUrl)
    && (c.isPlaying ==> c.handle.Some?)
  }

  lemma {:induction false} RunKeepsSingleHandle(c: CardState, audioUrl: string, events: seq<Event>)
    requires SingleHandle(c, audioUrl)
    ensures SingleHandle(ApplyAll(c, audioUrl, events), audioUrl)
    decreases |events|
  {
    if |events| > 0 {
      RunKeepsSingleHandle(Apply(c, audioUrl, events[0]), audioUrl, events[1..]);
    }
  }

  /** Out of range, nothing plays: if every press happens while not interactable and the
      card starts silent, it stays silent. */
  lemma {:induction false} OutOfRangeStaysSilent(c: CardState, audioUrl: string, events: seq<Event>)
    requires !c.isPlaying
    requires forall k :: 0 <= k < |events| && events[k].Press? ==> !events[k].interactable
    ensures !ApplyAll(c, audioUrl, events).isPlaying
    decreases |events|
  {
    if |events| > 0 {
      OutOfRangeStaysSilent(Apply(c, audioUrl, events[0]), audioUrl, events[1..]);
    }
  }

  /** The description line: a missing or empty description gets a placeholder, a long
      one is cut to 16 characters followed by an ellipsis, a short one is kept. */
  function TruncatedDescription(description: Option<string>): (t: string)
    ensures description.None? || description.value == "" ==> t == NO_DESCRIPTION
    ensures description.Some? && |description.value| > DESCRIPTION_LIMIT ==>
      |t| == DESCRIPTION_LIMIT + |ELLIPSIS| && t[..DESCRIPTION_LIMIT] == description.value[..DESCRIPTION_LIMIT]
      && t[DESCRIPTION_LIMIT..] == ELLIPSIS
    ensures description.Some? && 0 < |description.value| <= DESCRIPTION_LIMIT ==> t == description.value
    ensures |t| <= DESCRIPTION_LIMIT + |ELLIPSIS|
  {
    match description
    case None => NO_DESCRIPTION
    case Some(d) =>
      if d == "" then NO_DESCRIPTION
      else if |d| > DESCRIPTION_LIMIT then d[..DESCRIPTION_LIMIT] + ELLIPSIS
      else d
  }

  /** The text shown always starts with as much of the description as fits. */
  lemma TruncationKeepsPrefix(d: string)
    requires d != ""
    ensures var t := TruncatedDescription(Some(d));
      var n := if |d| < DESCRIPTION_LIMIT then |d| else DESCRIPTION_LIMIT;
      |t| >= n && t[..n] == d[..n]
  {
  }

  /** The card's progress bar, in percent: empty until the duration is known. */
  function CardProgressWidth(currentTime: real, duration: real): (w: real)
    ensures duration <= 0.0 ==> w == 0.0
    ensures duration > 0.0 ==> w * duration == currentTime * 100.0
    ensures duration > 0.0 && 0.0 <= currentTime <= duration ==> 0.0 <= w <= 100.0
    ensures duration > 0.0 ==> (w == 100.0 <==> currentTime == duration)
  {
    if duration > 0.0 then
      var q := currentTime / duration;
      assert q * duration == currentTime;
      assert 0.0 <= currentTime <= duration ==> 0.0 <= q <= 1.0 by {
        if 0.0 <= currentTime <= duration {
          assert (1.0 - q) * duration == duration - currentTime;
        }
      }
      q * 100.0
    else 0.0
  }
}
