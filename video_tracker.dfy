/** `VideoTracker`: the list of tracked objects and the orchestration that,
    for each frame shown, decides object by object whether the box is read
    from the cache, computed from the frame just decoded, or reached by
    tracking forward from the cache's frontier.

    The objects are held as store values (`TrajectoryStore.ObjectState`);
    the decoder is the shared `FFmpegPlayer`, whose frames are taken to
    come in strictly increasing timestamp order. */
module VideoTracking {
  import opened Common
  import opened OrderedMaps
  import opened TrajectoryStore
  import opened FrameIndex
  import TrajectoryProperties

  /** How a tracking call ends: its boolean result, or a
      `UserCanceledException`. */
  datatype Outcome = Done(ok: bool) | UserCanceled

  /** Where the decoder stands after seeking the first frame to track. */
  datatype Resumption = ResumeAt(frame: Frame) | SeekFailed | NoMoreFrames

  /** How a catch-up run of `track_frame` ends. */
  datatype CatchUpEnd = Reached | Exhausted | ReadFailed | CatchUpCanceled

  /** The timestamp lies within the object's life: not before its start and
      not after its end when one is set. */
  predicate InRange(s: ObjectState, t: int)
  {
    s.initialTimestamp <= t && !(s.endTimestampSet && s.endTimestamp < t)
  }

  /** What `track_next` needs and keeps: the store invariant, and, while the
      object is not all processed and no section is current, a section
      starting after the cache's frontier. */
  predicate Resumable(s: ObjectState)
  {
    && Valid(s)
    && (!s.allProcessed && s.current.None? && s.trajectory.Keys != {} ==>
          UpperBound(s.sections.Keys, Greatest(s.trajectory.Keys)).Some?)
  }

  /** Tracking changes neither the name nor the bounds of an object. */
  predicate SameBounds(a: ObjectState, b: ObjectState)
  {
    && a.name == b.name
    && a.initialTimestamp == b.initialTimestamp
    && a.endTimestampSet == b.endTimestampSet
    && a.endTimestamp == b.endTimestamp
  }

  /** `t` is where tracking resumes: after the cache's last entry, or, with
      an empty cache, not before the object's start. */
  predicate AfterFrontier(s: ObjectState, t: int)
  {
    match LastProcessed(s)
    case None => s.initialTimestamp <= t
    case Some(last) => last < t
  }

  /** The box at `t` is only read from the cache: the object is out of
      range, all processed, or its cache reaches `t`. */
  predicate Cached(s: ObjectState, t: int)
  {
    || !InRange(s, t)
    || s.allProcessed
    || (LastProcessed(s).Some? && t <= LastProcessed(s).value)
  }

  /** The frame just decoded directly follows the cache's frontier, so
      `track_next` is applied to it without seeking.  An empty cache never
      takes this path. */
  predicate FastPath(s: ObjectState, t: int, previousTimestampSet: bool, previousTimestamp: int)
  {
    !Cached(s, t) && previousTimestampSet && LastProcessed(s) == Some(previousTimestamp)
  }

  /** The cache covers the object up to its end: all processed, or tracked
      up to a set end. */
  predicate Finished(s: ObjectState)
  {
    s.allProcessed || (s.endTimestampSet && LastProcessed(s).Some? && s.endTimestamp <= LastProcessed(s).value)
  }

  /** What tracking keeps of an object whatever the outcome: the invariant,
      the bounds, every cached entry, and new entries only past the old
      frontier. */
  predicate Kept(before: ObjectState, after: ObjectState)
  {
    && Resumable(after)
    && SameBounds(after, before)
    && SubmapOf(before.trajectory, after.trajectory)
    && (forall k :: k in after.trajectory && k !in before.trajectory ==> AfterFrontier(before, k))
  }

  /** A `track_next` on a frame past the frontier of a resumable object is
      defined, writes exactly that frame, keeps the object resumable, and
      sets `allProcessed` only when the frame is the object's end. */
  lemma TrackNextPastFrontier(s: ObjectState, tracker: Tracker, frame: Frame)
    requires Resumable(s) && !s.allProcessed
    requires AfterFrontier(s, frame.timestamp)
    ensures TrackNextDefined(s)
    ensures Kept(s, TrackNext(s, tracker, frame).0)
    ensures TrackNext(s, tracker, frame).0.trajectory.Keys == s.trajectory.Keys + {frame.timestamp}
    ensures LastProcessed(TrackNext(s, tracker, frame).0) == Some(frame.timestamp)
    ensures TrackNext(s, tracker, frame).0.allProcessed ==>
              s.endTimestampSet && s.endTimestamp == frame.timestamp
  {
    var r := TrackNext(s, tracker, frame).0;
    TrajectoryProperties.TrackNextRecordsOneEntry(s, tracker, frame);
    TrajectoryProperties.TrackNextKeepsValid(s, tracker, frame);
    TrackNextFields(s, tracker, frame);
    OneEntryPastFrontier(s, r, frame.timestamp);
  }

  /** A state that keeps the invariant and the bounds and adds one cache
      entry past the frontier keeps what `s` had. */
  lemma OneEntryPastFrontier(s: ObjectState, r: ObjectState, t: int)
    requires Valid(r) && SameBounds(r, s) && (r.allProcessed || r.current.Some?)
    requires AfterFrontier(s, t)
    requires forall k :: k in r.trajectory <==> k in s.trajectory || k == t
    requires forall k :: k in s.trajectory && k != t ==> r.trajectory[k] == s.trajectory[k]
    ensures Kept(s, r)
    ensures r.trajectory.Keys == s.trajectory.Keys + {t}
    ensures LastProcessed(r) == Some(t)
  {
    assert r.trajectory.Keys == s.trajectory.Keys + {t} by {
      assert forall k :: k in r.trajectory.Keys <==> k in s.trajectory.Keys + {t};
    }
    assert LastProcessed(r) == Some(t) by {
      assert forall k :: k in r.trajectory ==> k <= t;
    }
  }

  /** `track_next` leaves the bounds alone, leaves a section current unless
      it sets `allProcessed`, and sets it only on reaching a set end. */
  lemma TrackNextFields(s: ObjectState, tracker: Tracker, frame: Frame)
    requires TrackNextDefined(s)
    ensures var r := TrackNext(s, tracker, frame).0;
      && SameBounds(r, s)
      && (r.allProcessed || r.current.Some?)
      && (r.allProcessed && !s.allProcessed ==> s.endTimestampSet && LastProcessed(r) == Some(s.endTimestamp))
  {
    TrajectoryProperties.TrackNextBranches(s, tracker, frame);
  }

  /** One more `track_next` in a run that started at `o`: the run keeps
      what `o` had, and the new entry lies past `o`'s frontier. */
  lemma TrackNextInRun(o: ObjectState, r: ObjectState, tracker: Tracker, frame: Frame)
    requires Kept(o, r) && !r.allProcessed
    requires AfterFrontier(o, frame.timestamp) && AfterFrontier(r, frame.timestamp)
    ensures TrackNextDefined(r)
    ensures Kept(o, TrackNext(r, tracker, frame).0)
    ensures TrackNext(r, tracker, frame).0.trajectory.Keys == r.trajectory.Keys + {frame.timestamp}
    ensures LastProcessed(TrackNext(r, tracker, frame).0) == Some(frame.timestamp)
    ensures TrackNext(r, tracker, frame).0.allProcessed ==> o.endTimestampSet && o.endTimestamp == frame.timestamp
  {
    TrackNextPastFrontier(r, tracker, frame);
  }

  /** Midway through a run that started at `o` and is about to track the
      frame at `t`: the run keeps what `o` had, and `t` lies past both
      frontiers. */
  predicate Continuing(o: ObjectState, r: ObjectState, t: int)
  {
    && Kept(o, r) && !r.allProcessed
    && AfterFrontier(o, t) && AfterFrontier(r, t)
  }

  /** Midway through a catch-up run towards `target`: every entry the run
      wrote lies before `target`. */
  predicate Running(o: ObjectState, r: ObjectState, t: int, target: int)
  {
    && Continuing(o, r, t)
    && forall k :: k in r.trajectory && k !in o.trajectory ==> k < target
  }

  /** After tracking the frame at `t` without reaching the end, the run
      goes on with any later frame. */
  lemma GoesOn(o: ObjectState, next: ObjectState, t: int, u: int)
    requires Kept(o, next) && !next.allProcessed
    requires AfterFrontier(o, t) && LastProcessed(next) == Some(t) && t < u
    ensures Continuing(o, next, u)
  {
  }

  /** One `track_next` of the catch-up loop on a frame before `target`:
      the run's new entries all lie before `target`, `allProcessed` stays
      clear, and every later frame lies past both frontiers. */
  lemma CatchUpStep(o: ObjectState, r: ObjectState, next: ObjectState, t: int, target: int)
    requires InRange(o, target) && t < target && AfterFrontier(o, t)
    requires forall k :: k in r.trajectory && k !in o.trajectory ==> k < target
    requires next.trajectory.Keys == r.trajectory.Keys + {t}
    requires LastProcessed(next) == Some(t)
    requires next.allProcessed ==> o.endTimestampSet && o.endTimestamp == t
    ensures !next.allProcessed
    ensures forall k :: k in next.trajectory && k !in o.trajectory ==> k < target
    ensures forall u :: t < u ==> AfterFrontier(o, u) && AfterFrontier(next, u)
  {
    assert forall k :: k in next.trajectory ==> k in r.trajectory || k == t;
  }

  /** What `track_frame` does to one object `o`, leaving `r`: it keeps
      what `o` had, leaves a cached object alone, and, when the object was
      `shown` (its call returned true), has the frame's box or has just
      been marked processed, and took the fast path by one `track_next`. */
  predicate Handled(o: ObjectState, r: ObjectState, frame: Frame, previousTimestampSet: bool, previousTimestamp: int,
                    tracker: Tracker, shown: bool)
  {
    && Kept(o, r)
    && (Cached(o, frame.timestamp) ==> r == o)
    && (shown && InRange(o, frame.timestamp) ==>
          frame.timestamp in r.trajectory || (r.allProcessed && !o.allProcessed))
    && (shown && FastPath(o, frame.timestamp, previousTimestampSet, previousTimestamp) ==>
          TrackNextDefined(o) && r == TrackNext(o, tracker, frame).0)
  }

  /** Once caught up, an object stays cached at that frame: a second
      `track_frame` at the same timestamp only reads the cache. */
  lemma CaughtUpIsCached(s: ObjectState, t: int)
    requires InRange(s, t) && t in s.trajectory
    ensures Cached(s, t)
  {
  }

  /** `std::vector::erase` of one element: the rest keep their order. */
  function Without<T>(v: seq<T>, id: nat): (r: seq<T>)
    requires id < |v|
    ensures |r| == |v| - 1
    ensures forall i :: 0 <= i < id ==> r[i] == v[i]
    ensures forall i :: id <= i < |r| ==> r[i] == v[i + 1]
  {
    v[..id] + v[id + 1..]
  }

  class VideoTracker {
    /** The decoder all objects share. */
    const player: FFmpegPlayer
    /** `trackedObjects`, in insertion order. */
    var objects: seq<ObjectState>

    /** The decoder's frames and its index are in increasing timestamp
        order, and every object can be tracked further. */
    ghost predicate Ready()
      reads this, player
    {
      && StrictlyIncreasing(player.stream)
      && StrictlyIncreasing(player.framesIndexVector)
      && forall i :: 0 <= i < |objects| ==> Resumable(objects[i])
    }

    constructor(player: FFmpegPlayer)
      ensures this.player == player && objects == []
    {
      this.player := player;
      objects := [];
    }

    /** `add_object`: the object is appended before its first frame is read;
        on success that frame is tracked and the new index returned,
        otherwise -1 with the untracked object left in the list. */
    method AddObject(name: string, position: Box, initialTimestamp: int, initialTimePosition: nat,
                     initialFrameNumber: nat, endTimestampSet: bool, endTimestamp: int,
                     endTimePosition: nat, endFrameNumber: nat,
                     tracker: Tracker, seek: int -> Option<nat>, timePositionOf: int -> nat) returns (id: int)
      requires Ready()
      modifies this, player
      ensures Ready()
      ensures |objects| == |old(objects)| + 1 && objects[..|old(objects)|] == old(objects)
      ensures id == -1 || id == |objects| - 1
      ensures var created := Initial(name, initialTimestamp, position, initialTimePosition, initialFrameNumber,
                                     endTimestampSet, endTimestamp, endTimePosition, endFrameNumber);
              && (id == -1 ==> objects[|objects| - 1] == created)
              && (id != -1 ==>
                    && initialTimestamp <= player.lastTimestamp
                    && objects[|objects| - 1].trajectory.Keys == {player.lastTimestamp}
                    && objects[|objects| - 1].current == Some(initialTimestamp)
                    && objects[|objects| - 1]
                       == TrackNext(created, tracker, Frame(player.lastTimestamp, timePositionOf(player.lastTimestamp),
                                                            FrameNumber(player.framesTimestampSet, player.lastTimestamp))).0)
    {
      var created := Initial(name, initialTimestamp, position, initialTimePosition, initialFrameNumber,
                             endTimestampSet, endTimestamp, endTimePosition, endFrameNumber);
      objects := objects + [created];
      var ok := player.GetFrameByTimestamp(seek, initialTimestamp);
      if !ok {
        return -1;
      }
      var frame := player.GetCurrentFrame(timePositionOf);
      TrackNextPastFrontier(created, tracker, frame);
      objects := objects[|objects| - 1 := TrackNext(created, tracker, frame).0];
      id := |objects| - 1;
    }

    /** Seeks the first frame to track: the one after the cache's last
        entry, or the first one not before the object's start when nothing
        is cached.  `NoMoreFrames` means the last entry is the last frame. */
    method SeekResumePoint(o: ObjectState, seek: int -> Option<nat>, timePositionOf: int -> nat)
      returns (resumption: Resumption)
      requires StrictlyIncreasing(player.stream) && StrictlyIncreasing(player.framesIndexVector)
      modifies player
      ensures player.framesIndexVector == old(player.framesIndexVector)
      ensures resumption.ResumeAt? ==>
                && 0 < player.position <= |player.stream|
                && resumption.frame.timestamp == player.stream[player.position - 1]
                && AfterFrontier(o, resumption.frame.timestamp)
                && forall k :: k in o.trajectory ==> k < resumption.frame.timestamp
      ensures resumption == NoMoreFrames ==> LastProcessed(o).Some?
    {
      var last := LastProcessed(o);
      if last.Some? {
        var ok := player.GetFrameByTimestamp(seek, last.value);
        if !ok {
          return SeekFailed;
        }
        var frame;
        ok, frame := player.GetNextFrame(timePositionOf);
        if !ok {
          return NoMoreFrames;
        }
        return ResumeAt(frame);
      } else {
        var ok := player.GetFrameByTimestamp(seek, o.initialTimestamp);
        if !ok {
          return SeekFailed;
        }
        var frame := player.GetCurrentFrame(timePositionOf);
        return ResumeAt(frame);
      }
    }

    /** The catch-up loop of `track_frame`: from the resume point, one
        `track_next` per decoded frame until a frame not before `target`.
        Every entry it writes but the last lies before `target`. */
    method CatchUp(o: ObjectState, target: int, tracker: Tracker, seek: int -> Option<nat>,
                   timePositionOf: int -> nat, canceled: int -> bool)
      returns (end: CatchUpEnd, r: ObjectState)
      requires Resumable(o) && !o.allProcessed && InRange(o, target)
      requires StrictlyIncreasing(player.stream) && StrictlyIncreasing(player.framesIndexVector)
      modifies player
      ensures player.framesIndexVector == old(player.framesIndexVector)
      ensures end == Exhausted ==> r == SetAllProcessed(o, true)
      ensures end != Exhausted ==> Kept(o, r)
      ensures end == Reached ==> LastProcessed(r).Some? && target <= LastProcessed(r).value
      ensures end == Reached ==>
                forall k :: k in r.trajectory && k !in o.trajectory && k != LastProcessed(r).value ==> k < target
    {
      var resumption := SeekResumePoint(o, seek, timePositionOf);
      if resumption == SeekFailed {
        return ReadFailed, o;
      }
      if resumption == NoMoreFrames {
        return Exhausted, SetAllProcessed(o, true);
      }
      var current := resumption.frame;
      r := o;
      while true
        invariant player.framesIndexVector == old(player.framesIndexVector)
        invariant 0 < player.position <= |player.stream| && current.timestamp == player.stream[player.position - 1]
        invariant Running(o, r, current.timestamp, target)
        decreases |player.stream| - player.position
      {
        var stop;
        stop, r, current := Round(o, r, target, current, tracker, timePositionOf, canceled);
        if stop.Some? {
          end := stop.value;
          break;
        }
      }
    }

    /** One round of the catch-up loop: track the frame, stop once it is
        not before `target` or the user cancels, otherwise decode the next
        frame. */
    method Round(o: ObjectState, r: ObjectState, target: int, current: Frame, tracker: Tracker,
                 timePositionOf: int -> nat, canceled: int -> bool)
      returns (stop: Option<CatchUpEnd>, next: ObjectState, following: Frame)
      requires Running(o, r, current.timestamp, target) && InRange(o, target)
      requires StrictlyIncreasing(player.stream)
      requires 0 < player.position <= |player.stream| && current.timestamp == player.stream[player.position - 1]
      modifies player
      ensures player.framesIndexVector == old(player.framesIndexVector)
      ensures next == TrackNext(r, tracker, current).0
      ensures Kept(o, next)
      ensures stop != Some(Exhausted)
      ensures stop == Some(Reached) <==> target <= current.timestamp
      ensures stop == Some(Reached) ==> LastProcessed(next) == Some(current.timestamp)
      ensures stop == Some(Reached) ==>
                forall k :: k in next.trajectory && k !in o.trajectory && k != current.timestamp ==> k < target
      ensures stop.None? ==>
                && old(player.position) < player.position <= |player.stream|
                && following.timestamp == player.stream[player.position - 1]
                && Running(o, next, following.timestamp, target)
    {
      next := Advance(o, r, target, tracker, current);
      following := current;
      if current.timestamp >= target {
        return Some(Reached), next, following;
      }
      if canceled(current.timestamp) {
        return Some(CatchUpCanceled), next, following;
      }
      var ok;
      ok, following := player.GetNextFrame(timePositionOf);
      if !ok {
        return Some(ReadFailed), next, following;
      }
      stop := None;
    }

    /** One `track_next` of the catch-up loop: what it keeps of `o`, and,
        on a frame before `target`, that the run may go on with any later
        frame. */
    method Advance(o: ObjectState, r: ObjectState, target: int, tracker: Tracker, frame: Frame)
      returns (next: ObjectState)
      requires Running(o, r, frame.timestamp, target) && InRange(o, target)
      ensures TrackNextDefined(r) && next == TrackNext(r, tracker, frame).0
      ensures Kept(o, next)
      ensures target <= frame.timestamp ==> LastProcessed(next) == Some(frame.timestamp)
      ensures target <= frame.timestamp ==>
                forall k :: k in next.trajectory && k !in o.trajectory && k != frame.timestamp ==> k < target
      ensures frame.timestamp < target ==> forall u :: frame.timestamp < u ==> Running(o, next, u, target)
    {
      TrackNextInRun(o, r, tracker, frame);
      next := TrackNext(r, tracker, frame).0;
      if frame.timestamp < target {
        CatchUpStep(o, r, next, frame.timestamp, target);
      }
    }

    /** The body of the `track_frame` loop for one object, ending with the
        `draw_mark` lookup of the frame's timestamp. */
    method TrackOne(o: ObjectState, frame: Frame, previousTimestampSet: bool, previousTimestamp: int,
                    tracker: Tracker, seek: int -> Option<nat>, timePositionOf: int -> nat, canceled: int -> bool)
      returns (outcome: Outcome, r: ObjectState)
      requires Resumable(o)
      requires StrictlyIncreasing(player.stream) && StrictlyIncreasing(player.framesIndexVector)
      modifies player
      ensures player.framesIndexVector == old(player.framesIndexVector)
      ensures Handled(o, r, frame, previousTimestampSet, previousTimestamp, tracker, outcome == Done(true))
      ensures Cached(o, frame.timestamp) && InRange(o, frame.timestamp) ==>
                (outcome == Done(true) <==> frame.timestamp in o.trajectory)
    {
      var t := frame.timestamp;
      if !InRange(o, t) {
        return Done(true), o;
      }
      var last := LastProcessed(o);
      if o.allProcessed || (last.Some? && t <= last.value) {
        return Done(GetPosition(o, t).Some?), o;
      }
      if previousTimestampSet && last == Some(previousTimestamp) {
        TrackNextPastFrontier(o, tracker, frame);
        r := TrackNext(o, tracker, frame).0;
      } else {
        var end;
        end, r := CatchUp(o, t, tracker, seek, timePositionOf, canceled);
        if end == Exhausted {
          TrajectoryProperties.SetAllProcessedKeepsValid(o, true);
          return Done(true), r;
        } else if end == ReadFailed {
          return Done(false), r;
        } else if end == CatchUpCanceled || canceled(LastProcessed(r).value) {
          return UserCanceled, r;
        }
      }
      outcome := Done(GetPosition(r, t).Some?);
    }

    /** `track_frame`: every object in the list, in order; the first
        failure or cancellation ends the call, keeping what was tracked. */
    method TrackFrame(frame: Frame, previousTimestampSet: bool, previousTimestamp: int,
                      tracker: Tracker, seek: int -> Option<nat>, timePositionOf: int -> nat, canceled: int -> bool)
      returns (outcome: Outcome)
      requires Ready()
      modifies this, player
      ensures Ready()
      ensures |objects| == |old(objects)|
      ensures forall i :: 0 <= i < |objects| ==>
                Handled(old(objects)[i], objects[i], frame, previousTimestampSet, previousTimestamp, tracker, outcome == Done(true))
    {
      var i := 0;
      while i < |objects|
        invariant 0 <= i <= |objects| == |old(objects)|
        invariant StrictlyIncreasing(player.framesIndexVector)
        invariant forall j :: i <= j < |objects| ==> objects[j] == old(objects)[j]
        invariant forall j :: 0 <= j < i ==>
                    Handled(old(objects)[j], objects[j], frame, previousTimestampSet, previousTimestamp, tracker, true)
      {
        var r;
        outcome, r := TrackOne(objects[i], frame, previousTimestampSet, previousTimestamp,
                               tracker, seek, timePositionOf, canceled);
        objects := objects[i := r];
        if outcome != Done(true) {
          return;
        }
        i := i + 1;
      }
      outcome := Done(true);
    }

    /** The body of `track_object` for one object: from the resume point to
        a frame not before a set end, or to the last frame, which marks the
        object all processed. */
    method RunToEnd(o: ObjectState, tracker: Tracker, seek: int -> Option<nat>,
                    timePositionOf: int -> nat, canceled: int -> bool)
      returns (outcome: Outcome, r: ObjectState)
      requires Resumable(o)
      requires StrictlyIncreasing(player.stream) && StrictlyIncreasing(player.framesIndexVector)
      modifies player
      ensures player.framesIndexVector == old(player.framesIndexVector)
      ensures Kept(o, r)
      ensures o.allProcessed ==> r == o && outcome == Done(true)
      ensures outcome == Done(true) ==> Finished(r)
    {
      if o.allProcessed {
        return Done(true), o;
      }
      var resumption := SeekResumePoint(o, seek, timePositionOf);
      if resumption == SeekFailed {
        return Done(false), o;
      }
      if resumption == NoMoreFrames {
        TrajectoryProperties.SetAllProcessedKeepsValid(o, true);
        return Done(true), SetAllProcessed(o, true);
      }
      var current := resumption.frame;
      r := o;
      while true
        invariant player.framesIndexVector == old(player.framesIndexVector)
        invariant 0 < player.position <= |player.stream| && current.timestamp == player.stream[player.position - 1]
        invariant Continuing(o, r, current.timestamp)
        decreases |player.stream| - player.position
      {
        var stop;
        stop, r, current := RoundToEnd(o, r, current, tracker, timePositionOf, canceled);
        if stop.Some? {
          return stop.value, r;
        }
      }
    }

    /** One round of the `track_object` loop: track the frame, stop at a
        set end or on cancel, mark the object processed when no frame
        follows, and otherwise decode the next frame. */
    method RoundToEnd(o: ObjectState, r: ObjectState, current: Frame, tracker: Tracker,
                      timePositionOf: int -> nat, canceled: int -> bool)
      returns (stop: Option<Outcome>, next: ObjectState, following: Frame)
      requires Continuing(o, r, current.timestamp)
      requires StrictlyIncreasing(player.stream)
      requires 0 < player.position <= |player.stream| && current.timestamp == player.stream[player.position - 1]
      modifies player
      ensures player.framesIndexVector == old(player.framesIndexVector)
      ensures Kept(o, next)
      ensures stop == Some(Done(true)) ==> Finished(next)
      ensures stop != Some(Done(false))
      ensures stop.None? ==>
                && old(player.position) < player.position <= |player.stream|
                && following.timestamp == player.stream[player.position - 1]
                && Continuing(o, next, following.timestamp)
    {
      TrackNextInRun(o, r, tracker, current);
      next := TrackNext(r, tracker, current).0;
      following := current;
      if next.endTimestampSet && current.timestamp >= next.endTimestamp {
        return Some(Done(true)), next, following;
      }
      if canceled(current.timestamp) {
        return Some(UserCanceled), next, following;
      }
      var ok;
      ok, following := player.GetNextFrame(timePositionOf);
      if !ok {
        TrajectoryProperties.SetAllProcessedKeepsValid(next, true);
        return Some(Done(true)), SetAllProcessed(next, true), following;
      }
      GoesOn(o, next, current.timestamp, following.timestamp);
      stop := None;
    }

    /** `track_object`: tracks one object to its end; the others are left
        as they are. */
    method TrackObject(id: nat, tracker: Tracker, seek: int -> Option<nat>,
                       timePositionOf: int -> nat, canceled: int -> bool) returns (outcome: Outcome)
      requires Ready() && id < |objects|
      modifies this, player
      ensures Ready()
      ensures |objects| == |old(objects)|
      ensures forall j :: 0 <= j < |objects| && j != id ==> objects[j] == old(objects)[j]
      ensures Kept(old(objects)[id], objects[id])
      ensures old(objects)[id].allProcessed ==> objects[id] == old(objects)[id] && outcome == Done(true)
      ensures outcome == Done(true) ==> Finished(objects[id])
    {
      var r;
      outcome, r := RunToEnd(objects[id], tracker, seek, timePositionOf, canceled);
      objects := objects[id := r];
    }

    /** `track_all`: every object in turn; the first failure or
        cancellation ends the call. */
    method TrackAll(tracker: Tracker, seek: int -> Option<nat>,
                    timePositionOf: int -> nat, canceled: int -> bool) returns (outcome: Outcome)
      requires Ready()
      modifies this, player
      ensures Ready()
      ensures |objects| == |old(objects)|
      ensures forall i :: 0 <= i < |objects| ==> Kept(old(objects)[i], objects[i])
      ensures outcome == Done(true) ==> forall i :: 0 <= i < |objects| ==> Finished(objects[i])
    {
      var i := 0;
      while i < |objects|
        invariant 0 <= i <= |objects| == |old(objects)|
        invariant Ready()
        invariant forall j :: i <= j < |objects| ==> objects[j] == old(objects)[j]
        invariant forall j :: 0 <= j < i ==> Kept(old(objects)[j], objects[j])
        invariant forall j :: 0 <= j < i ==> Finished(objects[j])
      {
        outcome := TrackObject(i, tracker, seek, timePositionOf, canceled);
        if outcome != Done(true) {
          return;
        }
        i := i + 1;
      }
      outcome := Done(true);
    }

    /** `get_object_end`: the end frame when one is set.  The source leaves
        its out-parameters untouched otherwise; they are zero here. */
    method GetObjectEnd(id: nat) returns (found: bool, timestamp: int, timePosition: nat, frameNumber: nat)
      requires id < |objects|
      ensures found == objects[id].endTimestampSet
      ensures found ==> timestamp == objects[id].endTimestamp && timePosition == objects[id].endTimePosition
                        && frameNumber == objects[id].endFrameNumber
    {
      var o := objects[id];
      if !o.endTimestampSet {
        return false, 0, 0, 0;
      }
      return true, o.endTimestamp, o.endTimePosition, o.endFrameNumber;
    }

    /** `delete_object`: removes exactly that object. */
    method DeleteObject(id: nat)
      requires id < |objects|
      modifies this
      ensures objects == Without(old(objects), id)
    {
      objects := Without(objects, id);
    }

    /** `get_all_objects_names`, in list order. */
    method GetAllObjectsNames() returns (names: seq<string>)
      ensures |names| == |objects|
      ensures forall i :: 0 <= i < |objects| ==> names[i] == objects[i].name
    {
      names := [];
      var i := 0;
      while i < |objects|
        invariant 0 <= i <= |objects| && |names| == i
        invariant forall j :: 0 <= j < i ==> names[j] == objects[j].name
      {
        names := names + [objects[i].name];
        i := i + 1;
      }
    }

    /** `erase_object_trajectories_to_comply`, applied to every object. */
    method EraseObjectTrajectoriesToComply()
      requires forall i :: 0 <= i < |objects| ==> ComplyDefined(objects[i])
      modifies this
      ensures |objects| == |old(objects)|
      ensures forall i :: 0 <= i < |objects| ==> objects[i] == EraseToComply(old(objects)[i])
    {
      var i := 0;
      while i < |objects|
        invariant 0 <= i <= |objects| == |old(objects)|
        invariant forall j :: 0 <= j < i ==> objects[j] == EraseToComply(old(objects)[j])
        invariant forall j :: i <= j < |objects| ==> objects[j] == old(objects)[j]
      {
        objects := objects[i := EraseToComply(objects[i])];
        i := i + 1;
      }
    }
  }
}
