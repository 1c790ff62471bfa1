/** `TrackedObject` as the program keeps it: one object whose fields the
    edit operations and `track_next` update in place.  Each method performs
    the source's steps on the fields and is proved to have exactly the
    effect of the matching function of `TrajectoryStore`, whose properties
    are proved in `TrajectoryProperties` and `SectionEditProperties`. */
module TrackedObjects {
  import opened Common
  import opened OrderedMaps
  import Store = TrajectoryStore
  import SectionEditProperties
  import Defocus

  class TrackedObject {
    var name: string
    var initialTimestamp: int
    var endTimestampSet: bool
    var endTimestamp: int
    var endTimePosition: nat
    var endFrameNumber: nat
    var trajectorySections: map<int, Store.Section>
    var trajectory: map<int, Store.Entry>
    var currentSection: Option<int>
    var nextSection: bool
    var nextSectionTimestamp: int
    var allProcessed: bool

    /** The fields as a store value. */
    function State(): Store.ObjectState
      reads this
    {
      Store.ObjectState(name, initialTimestamp, endTimestampSet, endTimestamp, endTimePosition, endFrameNumber,
                        trajectorySections, trajectory, currentSection, nextSection, nextSectionTimestamp,
                        allProcessed)
    }

    ghost predicate Valid()
      reads this
    {
      Store.Valid(State())
    }

    /** The full constructor: the Beginning section is added and there is no
        cursor yet. */
    constructor (objectName: string, timestamp: int, position: Box, timePosition: nat, frameNumber: nat,
                 endSet: bool, end: int, endPosition: nat, endFrame: nat)
      ensures State() == Store.Initial(objectName, timestamp, position, timePosition, frameNumber,
                                       endSet, end, endPosition, endFrame)
      ensures Valid()
    {
      name := objectName;
      initialTimestamp := timestamp;
      endTimestampSet := endSet;
      endTimestamp := end;
      endTimePosition := endPosition;
      endFrameNumber := endFrame;
      trajectorySections := map[timestamp := Store.NewSection(position, timestamp, timePosition, frameNumber)];
      trajectory := map[];
      currentSection := None;
      nextSection := false;
      nextSectionTimestamp := 0;
      allProcessed := false;
    }

    /** `add_section`. */
    method AddSection(timestamp: int, position: Box, timePosition: nat, frameNumber: nat)
      modifies this
      ensures State() == Store.AddSection(old(State()), timestamp, position, timePosition, frameNumber)
    {
      if timestamp !in trajectorySections {
        trajectorySections := trajectorySections[timestamp := Store.NewSection(position, timestamp, timePosition, frameNumber)];
      }
    }

    /** `get_last_processed_timestamp`. */
    method GetLastProcessedTimestamp() returns (found: bool, timestamp: int)
      ensures found <==> trajectory.Keys != {}
      ensures found ==> timestamp in trajectory && forall k :: k in trajectory ==> k <= timestamp
    {
      if trajectory.Keys == {} {
        return false, 0;
      }
      return true, Greatest(trajectory.Keys);
    }

    /** `get_position`. */
    method GetPosition(timestamp: int) returns (found: bool, position: Box)
      ensures found <==> timestamp in trajectory
      ensures found ==> position == trajectory[timestamp].position
    {
      if timestamp in trajectory {
        return true, trajectory[timestamp].position;
      }
      return false, Box(0, 0, 0, 0, 0.0);
    }

    /** The defocus geometry of `draw_mark`: false when nothing is cached at
        the timestamp, otherwise the tiles of the cached box over the
        corrected area `Defocus.ClampedArea`; the program itself starts from
        the wrapped area `Defocus.WrittenArea`. */
    method DefocusTiles(timestamp: int, cols: nat, rows: nat, defocusSize: nat) returns (found: bool, tiles: seq<Defocus.Tile>)
      requires defocusSize > 0
      ensures found <==> timestamp in trajectory
      ensures found ==> var a := Defocus.ClampedArea(trajectory[timestamp].position, cols, rows);
                        tiles == Defocus.Grid(a.left, a, defocusSize)
      ensures !found ==> tiles == []
    {
      if timestamp !in trajectory {
        return false, [];
      }
      var area := Defocus.ClampedArea(trajectory[timestamp].position, cols, rows);
      tiles := Defocus.Tiles(area, defocusSize);
      found := true;
    }

    /** Deletes the current section's tracker, if it has one. */
    method ReleaseTracker()
      requires Store.CurrentInSections(State())
      modifies this
      ensures State() == old(State()).(sections := Store.Released(old(trajectorySections), old(currentSection)))
    {
      if currentSection.Some? && trajectorySections[currentSection.value].tracker.Some? {
        var c := currentSection.value;
        trajectorySections := trajectorySections[c := trajectorySections[c].(tracker := None)];
      }
    }

    /** `set_all_processed`. */
    method SetAllProcessed(processed: bool)
      requires Store.CurrentInSections(State())
      modifies this
      ensures State() == Store.SetAllProcessed(old(State()), processed)
    {
      allProcessed := processed;
      if processed {
        ReleaseTracker();
        currentSection := None;
        nextSection := false;
      }
    }

    /** Points the next section at `upper_bound(key)`. */
    method FindNextSection(key: int)
      modifies this
      ensures State() == Store.NextAfter(old(State()), key)
    {
      var next := UpperBound(trajectorySections.Keys, key);
      if next.Some? {
        nextSection := true;
        nextSectionTimestamp := next.value;
      } else {
        nextSection := false;
      }
    }

    /** `set_trajectory_section`. */
    method SetTrajectorySection(timestamp: int, position: Box, timePosition: nat, frameNumber: nat) returns (ok: bool)
      requires Store.CurrentInSections(State())
      requires Store.SetSectionDefined(State(), timestamp)
      modifies this
      ensures (State(), ok) == Store.SetSection(old(State()), timestamp, position, timePosition, frameNumber)
      ensures old(Valid()) ==> Valid()
    {
      if Valid() {
        SectionEditProperties.SetSectionKeepsValid(State(), timestamp, position, timePosition, frameNumber);
      }
      if endTimestampSet && endTimestamp < timestamp {
        return false;
      }
      if timestamp in trajectorySections {
        ok := ChangeTrajectorySection(timestamp, timestamp, position, timePosition, frameNumber);
        return;
      }
      InsertSection(timestamp, position, timePosition, frameNumber);
      return true;
    }

    /** `set_trajectory_section` once no section starts at `timestamp`. */
    method InsertSection(timestamp: int, position: Box, timePosition: nat, frameNumber: nat)
      requires Store.CurrentInSections(State())
      requires Store.SetSectionDefined(State(), timestamp) && timestamp !in trajectorySections
      requires !(endTimestampSet && endTimestamp < timestamp)
      modifies this
      ensures State() == Store.InsertSection(old(State()), timestamp, position, timePosition, frameNumber)
    {
      AddSection(timestamp, position, timePosition, frameNumber);
      allProcessed := false;
      var lastSet, last := GetLastProcessedTimestamp();
      if timestamp < initialTimestamp {
        initialTimestamp := timestamp;
        trajectory := map[];
      } else if lastSet && timestamp <= last {
        DropCacheFrom(timestamp);
      } else {
        FindNextSection(trajectorySections[currentSection.value].initialTimestamp);
      }
    }

    /** The cursor is released and the cache erased from `timestamp` on. */
    method DropCacheFrom(timestamp: int)
      requires Store.CurrentInSections(State())
      modifies this
      ensures State() == Store.DropCacheFrom(old(State()), timestamp)
    {
      if currentSection.Some? {
        ReleaseTracker();
        currentSection := None;
        nextSection := false;
      }
      trajectory := EraseFromFound(trajectory, timestamp);
    }

    /** `change_trajectory_section`. */
    method ChangeTrajectorySection(oldTimestamp: int, newTimestamp: int,
                                   position: Box, timePosition: nat, frameNumber: nat) returns (ok: bool)
      requires oldTimestamp in trajectorySections
      requires Store.CurrentInSections(State())
      modifies this
      decreases if oldTimestamp == newTimestamp then 0 else 1
      ensures (State(), ok) == Store.ChangeSection(old(State()), oldTimestamp, newTimestamp, position, timePosition, frameNumber)
      ensures old(Valid()) ==> Valid()
    {
      if Valid() && !(endTimestampSet && endTimestamp < newTimestamp) {
        SectionEditProperties.ChangeSectionEffects(State(), oldTimestamp, newTimestamp, position, timePosition, frameNumber);
      }
      if endTimestampSet && endTimestamp < newTimestamp {
        return false;
      }
      DetachSection(oldTimestamp, newTimestamp);
      if newTimestamp in trajectorySections {
        ok := ChangeTrajectorySection(newTimestamp, newTimestamp, position, timePosition, frameNumber);
        return;
      }
      AddSection(newTimestamp, position, timePosition, frameNumber);
      return true;
    }

    /** The first step of `change_trajectory_section`: a live tracker goes
        together with the cache from its section's start, and the cursor is
        cleared. */
    method ResetCursor()
      requires Store.CurrentInSections(State())
      modifies this
      ensures State() == Store.Reset(old(State()))
    {
      if currentSection.Some? && trajectorySections[currentSection.value].tracker.Some? {
        trajectory := EraseFromFound(trajectory, trajectorySections[currentSection.value].initialTimestamp);
        ReleaseTracker();
      }
      currentSection := None;
      nextSection := false;
      allProcessed := false;
    }

    /** `change_trajectory_section` up to the re-insertion of the section. */
    method DetachSection(oldTimestamp: int, newTimestamp: int)
      requires oldTimestamp in trajectorySections
      requires Store.CurrentInSections(State())
      modifies this
      ensures State() == Store.Detach(old(State()), oldTimestamp, newTimestamp)
    {
      var keys := trajectorySections.Keys;
      ResetCursor();
      if oldTimestamp == Least(keys) {
        trajectory := map[];
        trajectorySections := EraseBeforeFound(trajectorySections, newTimestamp);
        initialTimestamp := newTimestamp;
      } else {
        trajectory := EraseFromFound(trajectory, newTimestamp);
        if newTimestamp < initialTimestamp {
          initialTimestamp := newTimestamp;
        }
        if oldTimestamp < newTimestamp {
          assert Least(keys) < oldTimestamp;
          trajectory := EraseFromFound(trajectory, Predecessor(keys, oldTimestamp));
        }
      }
      trajectorySections := trajectorySections - {oldTimestamp};
    }

    /** `delete_trajectory_section`. */
    method DeleteTrajectorySection(timestamp: int) returns (ok: bool)
      requires Valid()
      modifies this
      ensures (State(), ok) == Store.DeleteSection(old(State()), timestamp)
      ensures Valid()
    {
      if timestamp == initialTimestamp {
        return false;
      }
      SectionEditProperties.DeleteSectionEffects(State(), timestamp);
      var keys := trajectorySections.Keys;
      var previous := StepBack(keys, timestamp);
      StepCursorOff(timestamp);
      allProcessed := false;
      trajectorySections := trajectorySections - {timestamp};
      trajectory := EraseFromFound(trajectory, previous);
      return true;
    }

    /** The cursor update of `delete_trajectory_section`. */
    method StepCursorOff(timestamp: int)
      requires Store.CurrentInSections(State())
      modifies this
      ensures State() == Store.StepCursorOff(old(State()), timestamp)
    {
      if currentSection.Some? && trajectorySections[currentSection.value].initialTimestamp >= timestamp {
        ReleaseTracker();
        currentSection := None;
        nextSection := false;
      } else if nextSection && nextSectionTimestamp == timestamp {
        FindNextSection(timestamp);
      }
    }

    /** `change_end_frame`. */
    method ChangeEndFrame(setEnd: bool, timestamp: int, timePosition: nat, frameNumber: nat) returns (ok: bool)
      requires Valid()
      modifies this
      ensures (State(), ok) == Store.ChangeEndFrame(old(State()), setEnd, timestamp, timePosition, frameNumber)
      ensures Valid()
    {
      if !setEnd {
        SectionEditProperties.ChangeEndFrameUnset(State(), timestamp, timePosition, frameNumber);
      } else if initialTimestamp <= timestamp {
        SectionEditProperties.ChangeEndFrameBounds(State(), timestamp, timePosition, frameNumber);
      }
      var last := Greatest(trajectorySections.Keys);
      if !setEnd {
        if allProcessed {
          trajectory := EraseFromFound(trajectory, last);
        }
        endTimestampSet := false;
        allProcessed := false;
        return true;
      }
      if timestamp < initialTimestamp {
        return false;
      }
      SetEnd(timestamp, timePosition, frameNumber);
      return true;
    }

    /** The setting branch of `change_end_frame`. */
    method SetEnd(timestamp: int, timePosition: nat, frameNumber: nat)
      requires Valid() && initialTimestamp <= timestamp
      modifies this
      ensures State() == Store.SetEnd(old(State()), timestamp, timePosition, frameNumber)
    {
      ghost var s := State();
      CutCacheAtEnd(timestamp, timePosition, frameNumber);
      SectionEditProperties.ValidIgnoresCache(s, State());
      ghost var t1 := State();
      ClipToEnd();
      SectionEditProperties.ClipToEndKeepsValid(t1);
      if timestamp in trajectory {
        SetAllProcessed(true);
      }
    }

    /** The cache side of setting the end in `change_end_frame`. */
    method CutCacheAtEnd(timestamp: int, timePosition: nat, frameNumber: nat)
      requires Valid()
      modifies this
      ensures State() == Store.CutCacheAtEnd(old(State()), timestamp, timePosition, frameNumber)
    {
      var last := Greatest(trajectorySections.Keys);
      if allProcessed && timestamp > endTimestamp {
        trajectory := EraseFromFound(trajectory, last);
      }
      allProcessed := false;
      endTimestampSet := true;
      endTimestamp := timestamp;
      endTimePosition := timePosition;
      endFrameNumber := frameNumber;
      trajectory := EraseAfter(trajectory, timestamp);
    }

    /** The section side of setting the end in `change_end_frame`. */
    method ClipToEnd()
      requires Store.CurrentInSections(State())
      modifies this
      ensures State() == Store.ClipToEnd(old(State()))
    {
      if currentSection.Some? && trajectorySections[currentSection.value].initialTimestamp > endTimestamp
         && trajectorySections[currentSection.value].tracker.Some? {
        ReleaseTracker();
        currentSection := None;
        nextSection := false;
      }
      if nextSection && nextSectionTimestamp > endTimestamp {
        nextSection := false;
      }
      trajectorySections := AtMost(trajectorySections, endTimestamp);
    }

    /** `track_next`: the tracker is the oracle `tracker`. */
    method TrackNext(tracker: Tracker, frame: Frame) returns (box: Box)
      requires Store.TrackNextDefined(State())
      modifies this
      ensures (State(), box) == Store.TrackNext(old(State()), tracker, frame)
    {
      ghost var s := State();
      if currentSection.None? || (nextSection && frame.timestamp >= nextSectionTimestamp) {
        var key: int;
        if currentSection.None? {
          if trajectory.Keys == {} {
            key := Least(trajectorySections.Keys);
          } else {
            var lastProcessed := Greatest(trajectory.Keys);
            key := UpperBound(trajectorySections.Keys, lastProcessed).value;
          }
        } else {
          ReleaseTracker();
          key := nextSectionTimestamp;
        }
        assert key == Store.EnteredKey(s);
        assert Store.Released(s.sections, s.current) == trajectorySections;
        box := EnterSection(key, tracker, frame);
        return;
      }
      var c := currentSection.value;
      var stepped := tracker.step(trajectorySections[c].tracker.value, frame);
      var state := stepped.0;
      box := stepped.1;
      trajectorySections := trajectorySections[c := trajectorySections[c].(tracker := Some(state))];
      trajectory := trajectory[frame.timestamp := Store.Entry(box, frame.timePosition, frame.frameNumber)];
      if endTimestampSet {
        var found, lastProcessed := GetLastProcessedTimestamp();
        if found && lastProcessed == endTimestamp {
          SetAllProcessed(true);
        }
      }
    }

    /** The entering half of `track_next`, once the old tracker is gone:
        the cursor moves to `key`, the next section is looked up, and the
        section's new tracker records the frame. */
    method EnterSection(key: int, tracker: Tracker, frame: Frame) returns (box: Box)
      requires key in trajectorySections
      modifies this
      ensures var seeded := tracker.init(frame, old(trajectorySections)[key].initialPosition);
              && box == seeded.1
              && State() == Store.Record(Store.NextAfter(old(State()).(
                   sections := old(trajectorySections)[key := old(trajectorySections)[key].(tracker := Some(seeded.0))],
                   current := Some(key)), key), frame, box)
    {
      currentSection := Some(key);
      FindNextSection(key);
      var seeded := tracker.init(frame, trajectorySections[key].initialPosition);
      var state := seeded.0;
      box := seeded.1;
      ghost var unseated := trajectorySections;
      trajectorySections := trajectorySections[key := trajectorySections[key].(tracker := Some(state))];
      assert trajectorySections.Keys == unseated.Keys;
      trajectory := trajectory[frame.timestamp := Store.Entry(box, frame.timePosition, frame.frameNumber)];
    }

    /** `erase_trajectory_to_comply`. */
    method EraseTrajectoryToComply()
      requires Store.ComplyDefined(State())
      modifies this
      ensures State() == Store.EraseToComply(old(State()))
    {
      if allProcessed {
        return;
      }
      var found, lastProcessed := GetLastProcessedTimestamp();
      if !found {
        return;
      }
      var section := Floor(trajectorySections.Keys, lastProcessed);
      trajectory := EraseFromFound(trajectory, trajectorySections[section].initialTimestamp);
    }
  }
}
