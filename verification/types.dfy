/** The records shared by the components: a position reading and a geo-tagged recording. */
module Types {
  import opened Wrappers

  /** A distance on the ground, in metres. */
  type Meters = r: real | 0.0 <= r

  /** A point in WGS-84 degrees. */
  datatype Coord = Coord(latitude: real, longitude: real)

  /** The great-circle distance between two points. The program computes it with the
      Haversine formula in floating point; here it is an arbitrary non-negative function. */
  type Geo = (Coord, Coord) -> Meters

  /** The user's position as the location hook stores it. */
  datatype LocationData = LocationData(latitude: real, longitude: real, accuracy: real, timestamp: int) {
    function Position(): Coord {
      Coord(latitude, longitude)
    }
  }

  /** A recording as the client sees it; `isInteractable` is filled in by the map. */
  datatype AudioRecording = AudioRecording(
    id: string,
    createdAt: string,
    title: Option<string>,
    audioUrl: string,
    latitude: real,
    longitude: real,
    description: Option<string>,
    isInteractable: Option<bool>,
    themes: Option<seq<string>>)
  {
    function Position(): Coord {
      Coord(latitude, longitude)
    }
  }

  /** The ids occurring in a list of recordings. */
  function IdsOf(recs: seq<AudioRecording>): set<string> {
    set r | r in recs :: r.id
  }

  /** No two entries of the list share an id, as for rows keyed by their primary key. */
  predicate UniqueIds(recs: seq<AudioRecording>) {
    forall i, j :: 0 <= i < j < |recs| ==> recs[i].id != recs[j].id
  }
}
