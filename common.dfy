/** Values shared by the trajectory store, the frame index and the
    orchestration: the selection box, a decoded frame as the store sees it,
    and the particle-filter tracker as an opaque pair of functions. */
module Common {

  datatype Option<T> = None | Some(value: T)

  /** A `Selection`: an object's box in frame coordinates.  `angle` is a
      double in the program; nothing here computes with it. */
  datatype Box = Box(x: int, y: int, width: int, height: int, angle: real)

  /** A decoded frame, reduced to what the store keeps of it: the decoder's
      presentation timestamp, its time position in milliseconds and its
      1-based frame number. */
  datatype Frame = Frame(timestamp: int, timePosition: nat, frameNumber: nat)

  /** The particle set a live tracker carries between frames. */
  datatype TrackerState = TrackerState(particles: seq<Box>)

  /** The particle-filter tracker, left uninterpreted: `init` seeds a
      tracker from a frame and a reference box and returns the centred box
      it used; `step` advances a tracker by one frame and returns the best
      particle's box. */
  datatype Tracker = Tracker(
    init: (Frame, Box) -> (TrackerState, Box),
    step: (TrackerState, Frame) -> (TrackerState, Box))
}
