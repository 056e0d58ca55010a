/** The nearby-recordings panel: a persistent set of loaded recording ids, updated with
    hysteresis from the user's distance to each recording, and the cards it renders. */
module Proximity {
  import opened Wrappers
  import opened Types
  import opened Sequences
  import Distances

  /** The panel keeps its own copies of the load and unload thresholds. */
  const LOAD_DISTANCE: real := 20.0
  const UNLOAD_DISTANCE: real := 40.0
  /** A card can be played only within this distance (a literal in the panel). */
  const CARD_INTERACTION_DISTANCE: real := 10.0

  /** The panel's thresholds are the configured ones. */
  lemma LocalThresholdsMatchConfig()
    ensures LOAD_DISTANCE == Distances.LOAD_DISTANCE
    ensures UNLOAD_DISTANCE == Distances.UNLOAD_DISTANCE
  {
  }

  /** Distance from the user at `u` to recording `r`. */
  function DistanceTo(geo: Geo, u: LocationData, r: AudioRecording): Meters {
    geo(u.Position(), r.Position())
  }

  /** Reference rule: whether a recording at distance `d` is loaded after an update, given
      whether it was loaded before. Close enough always loads; beyond the unload distance
      always unloads; in between nothing changes. */
  predicate LoadedAfter(wasLoaded: bool, d: real) {
    d <= LOAD_DISTANCE || (wasLoaded && d <= UNLOAD_DISTANCE)
  }

  /** One iteration of the update loop: add the id when it is not loaded and close enough,
      otherwise remove it when it is loaded and too far. */
  function Visit(geo: Geo, u: LocationData, loaded: set<string>, r: AudioRecording): (next: set<string>)
    ensures next - {r.id} == loaded - {r.id}
    ensures r.id in next <==> LoadedAfter(r.id in loaded, DistanceTo(geo, u, r))
    ensures r.id in next && r.id !in loaded ==> DistanceTo(geo, u, r) <= LOAD_DISTANCE
    ensures r.id !in next && r.id in loaded ==> DistanceTo(geo, u, r) > UNLOAD_DISTANCE
  {
    var d := DistanceTo(geo, u, r);
    if r.id !in loaded && d <= LOAD_DISTANCE then loaded + {r.id}
    else if r.id in loaded && d > UNLOAD_DISTANCE then loaded - {r.id}
    else loaded
  }

  /** The update loop over the recordings, in list order. */
  function Sweep(geo: Geo, u: LocationData, loaded: set<string>, recs: seq<AudioRecording>): (next: set<string>)
    ensures forall id :: id !in IdsOf(recs) ==> (id in next <==> id in loaded)
    decreases |recs|
  {
    if |recs| == 0 then loaded
    else
      var rest := Sweep(geo, u, Visit(geo, u, loaded, recs[0]), recs[1..]);
      assert forall id :: id !in IdsOf(recs) ==> id !in IdsOf(recs[1..]) && id != recs[0].id;
      rest
  }

  /** The effect that runs when the location or the recordings change: with no location
      the set is emptied, otherwise every listed recording is visited. */
  function UpdateLoaded(geo: Geo, observer: Option<LocationData>, recs: seq<AudioRecording>, prev: set<string>): (next: set<string>)
    ensures observer.None? ==> next == {}
    ensures observer.Some? ==> forall id :: id !in IdsOf(recs) ==> (id in next <==> id in prev)
  {
    match observer
    case None => {}
    case Some(u) => Sweep(geo, u, prev, recs)
  }

  /** With unique ids, the loop decides each listed recording by the reference rule. */
  lemma {:induction false} SweepDecides(geo: Geo, u: LocationData, loaded: set<string>, recs: seq<AudioRecording>, k: int)
    requires UniqueIds(recs)
    requires 0 <= k < |recs|
    ensures recs[k].id in Sweep(geo, u, loaded, recs) <==> LoadedAfter(recs[k].id in loaded, DistanceTo(geo, u, recs[k]))
    decreases |recs|
  {
    var next := Visit(geo, u, loaded, recs[0]);
    var rest := recs[1..];
    assert UniqueIds(rest) by {
      forall i, j | 0 <= i < j < |rest| ensures rest[i].id != rest[j].id {
        assert rest[i] == recs[i + 1] && rest[j] == recs[j + 1];
      }
    }
    if k == 0 {
      assert recs[0].id !in IdsOf(rest) by {
        forall r | r in rest ensures r.id != recs[0].id {
          var j :| 0 <= j < |rest| && rest[j] == r;
          assert r == recs[j + 1];
        }
      }
    } else {
      SweepDecides(geo, u, next, rest, k - 1);
      assert rest[k - 1] == recs[k];
      assert recs[k].id != recs[0].id;
    }
  }

  /** The update as the component runs it: a loop over the recordings that adds or removes
      ids in a copy of the previous set. */
  method UpdateLoadedIds(geo: Geo, observer: Option<LocationData>, recs: seq<AudioRecording>, prev: set<string>)
    returns (next: set<string>)
    ensures next == UpdateLoaded(geo, observer, recs, prev)
    ensures observer.None? ==> next == {}
    ensures observer.Some? ==> forall id :: id !in IdsOf(recs) ==> (id in next <==> id in prev)
    ensures observer.Some? && UniqueIds(recs) ==>
      forall k :: 0 <= k < |recs| ==>
        (recs[k].id in next <==> LoadedAfter(recs[k].id in prev, DistanceTo(geo, observer.value, recs[k])))
  {
    match observer
    case None =>
      next := {};
    case Some(u) =>
      next := prev;
      var i := 0;
      while i < |recs|
        invariant 0 <= i <= |recs|
        invariant Sweep(geo, u, next, recs[i..]) == Sweep(geo, u, prev, recs)
      {
        var r := recs[i];
        var d := DistanceTo(geo, u, r);
        var isCurrentlyLoaded := r.id in next;
        if !isCurrentlyLoaded && d <= LOAD_DISTANCE {
          next := next + {r.id};
        } else if isCurrentlyLoaded && d > UNLOAD_DISTANCE {
          next := next - {r.id};
        }
        assert recs[i..][1..] == recs[i + 1..];
        i := i + 1;
      }
      assert recs[i..] == [];
      if UniqueIds(recs) {
        forall k | 0 <= k < |recs|
          ensures recs[k].id in next <==> LoadedAfter(recs[k].id in prev, DistanceTo(geo, u, recs[k]))
        {
          SweepDecides(geo, u, prev, recs, k);
        }
      }
  }

  /** The recordings shown in the panel: those whose id is loaded, in list order. */
  function VisibleRecordings(recs: seq<AudioRecording>, loaded: set<string>): (vis: seq<AudioRecording>)
    ensures forall r :: r in vis <==> r in recs && r.id in loaded
    ensures IsSubsequence(vis, recs)
    ensures (forall k :: 0 <= k < |recs| ==> recs[k].id in loaded) ==> vis == recs
    decreases |recs|
  {
    if |recs| == 0 then []
    else
      var rest := VisibleRecordings(recs[1..], loaded);
      assert forall r :: r in recs <==> r == recs[0] || r in recs[1..];
      if recs[0].id in loaded then
        var vis := [recs[0]] + rest;
        assert vis[0] == recs[0] && vis[1..] == rest;
        vis
      else
        rest
  }

  /** What one card receives from the panel. */
  datatype CardProps = CardProps(recording: AudioRecording, distance: Meters, isInteractable: bool)

  /** The panel's output: nothing without a location or without a visible recording,
      otherwise one card per visible recording, playable when within 10 m. */
  function RenderNearby(geo: Geo, observer: Option<LocationData>, recs: seq<AudioRecording>, loaded: set<string>)
    : (cards: Option<seq<CardProps>>)
    ensures cards.None? <==> observer.None? || VisibleRecordings(recs, loaded) == []
    ensures cards.Some? ==>
      var vis := VisibleRecordings(recs, loaded);
      && |cards.value| == |vis|
      && forall k :: 0 <= k < |vis| ==>
           && cards.value[k].recording == vis[k]
           && cards.value[k].distance == DistanceTo(geo, observer.value, vis[k])
           && (cards.value[k].isInteractable <==> cards.value[k].distance <= CARD_INTERACTION_DISTANCE)
  {
    var vis := VisibleRecordings(recs, loaded);
    if observer.None? || |vis| == 0 then None
    else
      var u := observer.value;
      Some(seq(|vis|, k requires 0 <= k < |vis| =>
        var d := DistanceTo(geo, u, vis[k]);
        CardProps(vis[k], d, d <= CARD_INTERACTION_DISTANCE)))
  }

  /** Successive updates, one per location value the effect sees. */
  function Run(geo: Geo, recs: seq<AudioRecording>, loaded: set<string>, observers: seq<Option<LocationData>>): set<string>
    decreases |observers|
  {
    if |observers| == 0 then loaded
    else Run(geo, recs, UpdateLoaded(geo, observers[0], recs, loaded), observers[1..])
  }

  /** Hysteresis: while the user stays located and the recording stays inside the band
      (farther than the load distance, no farther than the unload distance), its loaded
      status never changes, however many updates happen. */
  lemma {:induction false} BandKeepsMembership(geo: Geo, recs: seq<AudioRecording>, loaded: set<string>,
                                               observers: seq<Option<LocationData>>, k: int)
    requires UniqueIds(recs)
    requires 0 <= k < |recs|
    requires forall t :: 0 <= t < |observers| ==>
      && observers[t].Some?
      && LOAD_DISTANCE < DistanceTo(geo, observers[t].value, recs[k]) <= UNLOAD_DISTANCE
    ensures recs[k].id in Run(geo, recs, loaded, observers) <==> recs[k].id in loaded
    decreases |observers|
  {
    if |observers| > 0 {
      var next := UpdateLoaded(geo, observers[0], recs, loaded);
      SweepDecides(geo, observers[0].value, loaded, recs, k);
      BandKeepsMembership(geo, recs, next, observers[1..], k);
    }
  }

  /** A recording that is not loaded stays unloaded until some update sees it within the
      load distance: coming back inside the unload distance is not enough. */
  lemma {:induction false} NoLoadWithoutApproach(geo: Geo, recs: seq<AudioRecording>, loaded: set<string>,
                                                 observers: seq<Option<LocationData>>, k: int)
    requires UniqueIds(recs)
    requires 0 <= k < |recs|
    requires recs[k].id !in loaded
    requires forall t :: 0 <= t < |observers| && observers[t].Some? ==>
      DistanceTo(geo, observers[t].value, recs[k]) > LOAD_DISTANCE
    ensures recs[k].id !in Run(geo, recs, loaded, observers)
    decreases |observers|
  {
    if |observers| > 0 {
      var next := UpdateLoaded(geo, observers[0], recs, loaded);
      if observers[0].Some? {
        SweepDecides(geo, observers[0].value, loaded, recs, k);
      }
      NoLoadWithoutApproach(geo, recs, next, observers[1..], k);
    }
  }

  /** After any update every loaded listed recording lies within the unload distance. */
  lemma LoadedAreWithinUnload(geo: Geo, u: LocationData, recs: seq<AudioRecording>, prev: set<string>, k: int)
    requires UniqueIds(recs)
    requires 0 <= k < |recs|
    requires recs[k].id in UpdateLoaded(geo, Some(u), recs, prev)
    ensures DistanceTo(geo, u, recs[k]) <= UNLOAD_DISTANCE
  {
    SweepDecides(geo, u, prev, recs, k);
  }
}
