/** The browser's media recorder, as both recording components hold it. */
module Media {

  /** The recorder a component holds: none yet, capturing, or stopped. */
  datatype Recorder = NoRecorder | Capturing | Inactive

  /** One chunk of encoded audio delivered by the recorder. */
  type Chunk = seq<bv8>
}
