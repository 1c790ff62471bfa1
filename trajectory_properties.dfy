/** What the `TrackedObject` operations promise about the store: each keeps
    the class invariant, rejects the edits the program refuses, and evicts
    exactly the cache range its comments describe. */
module TrajectoryProperties {
  import opened Common
  import opened OrderedMaps
  import opened TrajectoryStore

  /** Setting `allProcessed` drops the live tracker and the cursor; either
      way the invariant holds and only the flag and the cursor change. */
  lemma SetAllProcessedKeepsValid(s: ObjectState, processed: bool)
    requires Valid(s)
    ensures Valid(SetAllProcessed(s, processed))
    ensures SetAllProcessed(s, processed).allProcessed == processed
    ensures SetAllProcessed(s, processed).trajectory == s.trajectory
    ensures SetAllProcessed(s, processed).sections.Keys == s.sections.Keys
    ensures processed ==> SetAllProcessed(s, processed).current.None? && !SetAllProcessed(s, processed).nextSection
    ensures processed ==> forall k :: k in SetAllProcessed(s, processed).sections ==> SetAllProcessed(s, processed).sections[k].tracker.None?
  {
  }

  /** `track_next` writes exactly one cache entry, at the frame's timestamp,
      and keeps every other entry and the set of sections. */
  lemma TrackNextRecordsOneEntry(s: ObjectState, tracker: Tracker, frame: Frame)
    requires TrackNextDefined(s)
    ensures TrackNext(s, tracker, frame).0.sections.Keys == s.sections.Keys
    ensures forall k :: k in TrackNext(s, tracker, frame).0.trajectory <==> k in s.trajectory || k == frame.timestamp
    ensures TrackNext(s, tracker, frame).0.trajectory[frame.timestamp]
         == Entry(TrackNext(s, tracker, frame).1, frame.timePosition, frame.frameNumber)
    ensures forall k :: k in s.trajectory && k != frame.timestamp ==>
              TrackNext(s, tracker, frame).0.trajectory[k] == s.trajectory[k]
  {
    var r := TrackNext(s, tracker, frame).0;
    var e := Entry(TrackNext(s, tracker, frame).1, frame.timePosition, frame.frameNumber);
    assert r.trajectory == s.trajectory[frame.timestamp := e] by {
      if EntersSection(s, frame) {
        EnterRecords(s, tracker, frame);
      } else {
        StepRecords(s, tracker, frame);
      }
    }
  }

  lemma EnterRecords(s: ObjectState, tracker: Tracker, frame: Frame)
    requires TrackNextDefined(s) && EntersSection(s, frame)
    ensures TrackNext(s, tracker, frame).0.trajectory
         == s.trajectory[frame.timestamp := Entry(TrackNext(s, tracker, frame).1, frame.timePosition, frame.frameNumber)]
  {
  }

  lemma StepRecords(s: ObjectState, tracker: Tracker, frame: Frame)
    requires TrackNextDefined(s) && !EntersSection(s, frame)
    ensures TrackNext(s, tracker, frame).0.trajectory
         == s.trajectory[frame.timestamp := Entry(TrackNext(s, tracker, frame).1, frame.timePosition, frame.frameNumber)]
  {
  }

  /** `track_next` keeps the invariant: the entered section is the only one
      with a tracker, and the next-section pointer is `upper_bound` of it. */
  lemma TrackNextKeepsValid(s: ObjectState, tracker: Tracker, frame: Frame)
    requires TrackNextDefined(s)
    ensures Valid(TrackNext(s, tracker, frame).0)
    ensures WithinEnd(s) ==> WithinEnd(TrackNext(s, tracker, frame).0)
  {
    if EntersSection(s, frame) {
      EnterKeepsValid(s, tracker, frame);
    } else {
      StepKeepsValid(s, tracker, frame);
    }
  }

  lemma EnterKeepsValid(s: ObjectState, tracker: Tracker, frame: Frame)
    requires TrackNextDefined(s) && EntersSection(s, frame)
    ensures Valid(TrackNext(s, tracker, frame).0)
    ensures WithinEnd(s) ==> WithinEnd(TrackNext(s, tracker, frame).0)
  {
    var key := EnteredKey(s);
    var state := tracker.init(frame, s.sections[key].initialPosition).0;
    if s.current.Some? {
      assert key != s.current.value;
    }
    SeatKeepsValid(s, key, state);
  }

  /** Moving the tracker to `key` and pointing the next section at
      `upper_bound(key)` keeps the invariant. */
  lemma SeatKeepsValid(s: ObjectState, key: int, state: TrackerState)
    requires Valid(s) && key in s.sections
    ensures Valid(NextAfter(Seat(s, key, state), key))
    ensures WithinEnd(s) ==> WithinEnd(NextAfter(Seat(s, key, state), key))
  {
    SeatedCursor(s, key, state);
    NextAfterRepairs(Seat(s, key, state), key);
  }

  /** Seating the tracker keeps the section keys and leaves a cursor with
      no next section yet. */
  lemma SeatedCursor(s: ObjectState, key: int, state: TrackerState)
    requires Valid(s) && key in s.sections
    ensures var t := Seat(s, key, state);
      && Valid(t.(nextSection := false)) && t.current == Some(key)
      && t.sections.Keys == s.sections.Keys
      && t.endTimestampSet == s.endTimestampSet && t.endTimestamp == s.endTimestamp
  {
    var m := Seat(s, key, state).sections;
    assert m.Keys == s.sections.Keys;
    assert forall k :: k in m ==> (m[k].tracker.Some? <==> k == key);
  }

  /** Pointing the next section at `upper_bound` of the current key
      restores the invariant. */
  lemma NextAfterRepairs(t: ObjectState, key: int)
    requires Valid(t.(nextSection := false)) && t.current == Some(key)
    ensures Valid(NextAfter(t, key)) && NextAfter(t, key).sections == t.sections
    ensures NextAfter(t, key).endTimestampSet == t.endTimestampSet
    ensures NextAfter(t, key).endTimestamp == t.endTimestamp
  {
  }

  lemma StepKeepsValid(s: ObjectState, tracker: Tracker, frame: Frame)
    requires TrackNextDefined(s) && !EntersSection(s, frame)
    ensures Valid(TrackNext(s, tracker, frame).0)
    ensures WithinEnd(s) ==> WithinEnd(TrackNext(s, tracker, frame).0)
  {
    var c := s.current.value;
    var state := tracker.step(s.sections[c].tracker.value, frame).0;
    var m := s.sections[c := s.sections[c].(tracker := Some(state))];
    assert m.Keys == s.sections.Keys;
  }

  /** Which box `track_next` records and what becomes of `allProcessed`. */
  lemma TrackNextBranches(s: ObjectState, tracker: Tracker, frame: Frame)
    requires TrackNextDefined(s)
    ensures var (r, box) := TrackNext(s, tracker, frame);
      && (EntersSection(s, frame) ==>
            && box == tracker.init(frame, s.sections[EnteredKey(s)].initialPosition).1
            && r.current == Some(EnteredKey(s))
            && r.allProcessed == s.allProcessed)
      && (!EntersSection(s, frame) ==>
            && box == tracker.step(s.sections[s.current.value].tracker.value, frame).1
            && (s.endTimestampSet && LastProcessed(r) == Some(s.endTimestamp) ==> r.allProcessed && r.current.None?)
            && (!(s.endTimestampSet && LastProcessed(r) == Some(s.endTimestamp)) ==>
                  r.allProcessed == s.allProcessed && r.current == s.current))
  {
    if EntersSection(s, frame) && s.current.Some? {
      assert EnteredKey(s) != s.current.value;
    }
  }

  /** The section `track_next` enters when the cursor is clear and the cache
      is not empty starts strictly after the frontier, with no section in
      between. */
  lemma EnteredKeyAfterFrontier(s: ObjectState)
    requires TrackNextDefined(s)
    requires s.current.None? && s.trajectory.Keys != {}
    ensures var k := EnteredKey(s);
      && LastProcessed(s).value < k
      && forall j :: j in s.sections && LastProcessed(s).value < j ==> k <= j
  {
  }

  /** `erase_trajectory_to_comply` leaves the cache alone when everything is
      processed or nothing is; otherwise it cuts the cache at the start of
      the section the frontier lies in, when that start is cached. */
  lemma EraseToComplyCutsAtSection(s: ObjectState)
    requires Valid(s)
    requires ComplyDefined(s)
    ensures Valid(EraseToComply(s))
    ensures SubmapOf(EraseToComply(s).trajectory, s.trajectory)
    ensures s.allProcessed || s.trajectory.Keys == {} ==> EraseToComply(s) == s
    ensures !s.allProcessed && s.trajectory.Keys != {} ==>
      var f := Floor(s.sections.Keys, LastProcessed(s).value);
      && (f in s.trajectory ==> forall k :: k in EraseToComply(s).trajectory <==> k in s.trajectory && k < f)
      && (f !in s.trajectory ==> EraseToComply(s) == s)
  {
  }

  /** Why the cache is trimmed after loading: a loaded object has no cursor,
      and once the cache ends before the start of the frontier's section,
      `track_next` has a section to enter and it is that section or an
      earlier one. */
  lemma {:induction false} ComplyThenResume(s: ObjectState)
    requires Valid(s)
    requires s.current.None? && !s.allProcessed && s.trajectory.Keys != {}
    requires ComplyDefined(s)
    requires Floor(s.sections.Keys, LastProcessed(s).value) in s.trajectory
    ensures TrackNextDefined(EraseToComply(s))
    ensures EnteredKey(EraseToComply(s)) <= Floor(s.sections.Keys, LastProcessed(s).value)
  {
    var f := Floor(s.sections.Keys, LastProcessed(s).value);
    var r := EraseToComply(s);
    EraseToComplyCutsAtSection(s);
    if r.trajectory.Keys != {} {
      var m := Greatest(r.trajectory.Keys);
      assert m < f;
      assert UpperBound(s.sections.Keys, m).Some?;
    }
  }
}

module SectionEditProperties {
  import opened Common
  import opened OrderedMaps
  import opened TrajectoryStore

  /** The Beginning is the first section. */
  lemma LeastIsInitial(s: ObjectState)
    requires Valid(s)
    ensures Least(s.sections.Keys) == s.initialTimestamp
  {
  }

  /** Erasing from a cached key `x`, after any earlier erasure, leaves only
      keys below `x`. */
  lemma CutBelow(m: map<int, Entry>, earlier: map<int, Entry>, x: int)
    requires Evicted(earlier, m)
    requires x in m
    ensures forall k :: k in EraseFromFound(earlier, x) ==> k < x
  {
    if x !in earlier && earlier != m && earlier != map[] {
      var c :| c in m && earlier == Below(m, c);
      assert c <= x;
    }
  }

  /** One more erasure from a found key keeps a cache evicted. */
  lemma EvictedAgain(m: map<int, Entry>, earlier: map<int, Entry>, x: int)
    requires Evicted(earlier, m)
    ensures Evicted(EraseFromFound(earlier, x), m)
  {
    if x in earlier && earlier != m && earlier != map[] {
      var c :| c in m && earlier == Below(m, c);
      assert x < c;
      assert EraseFromFound(earlier, x) == Below(m, x);
    } else if x in earlier {
      assert EraseFromFound(earlier, x) == Below(m, x);
    }
  }

  /** An evicted cache is a submap of the old one. */
  lemma EvictedIsSubmap(a: map<int, Entry>, m: map<int, Entry>)
    requires Evicted(a, m)
    ensures SubmapOf(a, m)
  {
  }

  /** Submaps compose. */
  lemma SubmapTrans(a: map<int, Entry>, b: map<int, Entry>, c: map<int, Entry>)
    requires SubmapOf(a, b) && SubmapOf(b, c)
    ensures SubmapOf(a, c)
  {
  }

  /** The reset step of `change_trajectory_section`. */
  lemma ResetFacts(s: ObjectState)
    requires Valid(s)
    ensures var t := Reset(s);
      && t.current.None? && !t.nextSection && !t.allProcessed
      && t.sections.Keys == s.sections.Keys
      && (forall k :: k in t.sections ==> t.sections[k] == s.sections[k].(tracker := None))
      && Evicted(t.trajectory, s.trajectory)
      && t.initialTimestamp == s.initialTimestamp
      && t.name == s.name
      && t.endTimestampSet == s.endTimestampSet && t.endTimestamp == s.endTimestamp
      && t.endTimePosition == s.endTimePosition && t.endFrameNumber == s.endFrameNumber
  {
  }

  /** Changing the Beginning section: the cache is emptied, the Beginning
      moves to `newTimestamp`, and only sections from `newTimestamp` on stay,
      none at all when no section starts exactly there. */
  lemma DetachBeginning(s: ObjectState, oldTimestamp: int, newTimestamp: int)
    requires Valid(s) && oldTimestamp in s.sections && oldTimestamp == s.initialTimestamp
    ensures var t := Detach(s, oldTimestamp, newTimestamp);
      && t.trajectory == map[]
      && t.initialTimestamp == newTimestamp
      && (forall k :: k in t.sections <==> newTimestamp in s.sections && k in s.sections && newTimestamp <= k && k != oldTimestamp)
      && (forall k :: k in t.sections ==> t.sections[k] == s.sections[k].(tracker := None))
  {
    LeastIsInitial(s);
    ResetFacts(s);
  }

  /** Changing any other section: the Beginning moves only when the section
      moves before it, only the old section is erased, and the cache is cut
      at `newTimestamp` when that is cached. */
  lemma DetachMiddle(s: ObjectState, oldTimestamp: int, newTimestamp: int)
    requires Valid(s) && oldTimestamp in s.sections && oldTimestamp != s.initialTimestamp
    ensures var t := Detach(s, oldTimestamp, newTimestamp);
      && t.initialTimestamp == (if newTimestamp < s.initialTimestamp then newTimestamp else s.initialTimestamp)
      && (forall k :: k in t.sections <==> k in s.sections && k != oldTimestamp)
      && (forall k :: k in t.sections ==> t.sections[k] == s.sections[k].(tracker := None))
      && Evicted(t.trajectory, s.trajectory)
      && (newTimestamp in s.trajectory ==> forall k :: k in t.trajectory ==> k < newTimestamp)
  {
    LeastIsInitial(s);
    ResetFacts(s);
    var t1 := Reset(s);
    var cut := EraseFromFound(t1.trajectory, newTimestamp);
    EvictedAgain(s.trajectory, t1.trajectory, newTimestamp);
    if oldTimestamp < newTimestamp {
      EvictedAgain(s.trajectory, cut, Predecessor(s.sections.Keys, oldTimestamp));
    }
    if newTimestamp in s.trajectory {
      CutBelow(s.trajectory, t1.trajectory, newTimestamp);
    }
  }

  /** When a section moves later, the cache is also cut at the start of the
      section before it. */
  lemma DetachCutsAtPredecessor(s: ObjectState, oldTimestamp: int, newTimestamp: int)
    requires Valid(s) && oldTimestamp in s.sections
    requires oldTimestamp != s.initialTimestamp && oldTimestamp < newTimestamp
    ensures s.initialTimestamp < oldTimestamp
    ensures Predecessor(s.sections.Keys, oldTimestamp) in s.trajectory ==>
      forall k :: k in Detach(s, oldTimestamp, newTimestamp).trajectory ==> k < Predecessor(s.sections.Keys, oldTimestamp)
  {
    LeastIsInitial(s);
    ResetFacts(s);
    var t1 := Reset(s);
    var cut := EraseFromFound(t1.trajectory, newTimestamp);
    EvictedAgain(s.trajectory, t1.trajectory, newTimestamp);
    var p := Predecessor(s.sections.Keys, oldTimestamp);
    if p in s.trajectory {
      CutBelow(s.trajectory, cut, p);
    }
  }

  /** What changing the section at `x` in place leaves, relative to the
      state `t` it started from. */
  ghost predicate InPlaceOf(t: ObjectState, x: int, position: Box, timePosition: nat, frameNumber: nat, r: ObjectState)
  {
    && Valid(r)
    && r.current.None? && !r.nextSection && !r.allProcessed
    && r.name == t.name
    && r.endTimestampSet == t.endTimestampSet && r.endTimestamp == t.endTimestamp
    && r.endTimePosition == t.endTimePosition && r.endFrameNumber == t.endFrameNumber
    && r.initialTimestamp == t.initialTimestamp
    && (forall k :: k in r.sections <==> k in t.sections)
    && x in r.sections
    && r.sections[x] == NewSection(position, x, timePosition, frameNumber)
    && (forall k :: k in r.sections && k != x ==> r.sections[k] == t.sections[k])
    && (x == t.initialTimestamp ==> r.trajectory == map[])
    && Evicted(r.trajectory, t.trajectory)
    && (x in t.trajectory ==> forall k :: k in r.trajectory ==> k < x)
  }

  /** A section changed in place (old and new timestamp equal) on a state
      with no cursor: the set of sections stays, the section gets its new
      box, and the cache is emptied when it is the Beginning and cut at its
      start otherwise. */
  lemma {:induction false} ChangeInPlace(t: ObjectState, x: int, position: Box, timePosition: nat, frameNumber: nat)
    requires Valid(t) && x in t.sections && t.current.None?
    requires !(t.endTimestampSet && t.endTimestamp < x)
    ensures ChangeSection(t, x, x, position, timePosition, frameNumber).1
    ensures InPlaceOf(t, x, position, timePosition, frameNumber, ChangeSection(t, x, x, position, timePosition, frameNumber).0)
  {
    var d := Detach(t, x, x);
    DetachIsDetached(t, x, x);
    if x == t.initialTimestamp {
      DetachBeginning(t, x, x);
    } else {
      DetachMiddle(t, x, x);
    }
    assert forall k :: k in d.sections <==> k in t.sections && k != x;
    assert ChangeSection(t, x, x, position, timePosition, frameNumber)
        == (AddSection(d, x, position, timePosition, frameNumber), true);
    AddInPlace(t, x, d, position, timePosition, frameNumber);
  }

  lemma AddInPlace(t: ObjectState, x: int, d: ObjectState, position: Box, timePosition: nat, frameNumber: nat)
    requires Valid(t) && x in t.sections && t.current.None?
    requires DetachedFrom(t, x, x, d)
    requires forall k :: k in d.sections <==> k in t.sections && k != x
    requires d.initialTimestamp == t.initialTimestamp
    requires x == t.initialTimestamp ==> d.trajectory == map[]
    requires Evicted(d.trajectory, t.trajectory)
    requires x in t.trajectory ==> forall k :: k in d.trajectory ==> k < x
    ensures InPlaceOf(t, x, position, timePosition, frameNumber, AddSection(d, x, position, timePosition, frameNumber))
  {
    var r := AddSection(d, x, position, timePosition, frameNumber);
    assert forall k :: k in r.sections ==> (r.sections[k].tracker.Some? <==> r.current == Some(k));
    assert forall k :: k in r.sections && k != x ==> r.sections[k] == t.sections[k];
  }

  /** What a successful `change_trajectory_section` leaves: the invariant,
      the new section at `newTimestamp` with its new box, the other
      surviving sections as they were (without trackers), a submap of the
      cache, and no cursor. */
  ghost predicate Changed(s: ObjectState, oldTimestamp: int, newTimestamp: int,
                    position: Box, timePosition: nat, frameNumber: nat, r: ObjectState)
  {
    && Valid(r)
    && (WithinEnd(s) ==> WithinEnd(r))
    && r.current.None? && !r.nextSection && !r.allProcessed
    && r.endTimestampSet == s.endTimestampSet && r.endTimestamp == s.endTimestamp
    && newTimestamp in r.sections
    && r.sections[newTimestamp] == NewSection(position, newTimestamp, timePosition, frameNumber)
    && (forall k :: k in r.sections && k != newTimestamp ==>
          k in s.sections && k != oldTimestamp && r.sections[k] == s.sections[k].(tracker := None))
    && SubmapOf(r.trajectory, s.trajectory)
  }

  /** What `Detach` leaves that the re-insertion relies on. */
  ghost predicate DetachedFrom(s: ObjectState, oldTimestamp: int, newTimestamp: int, t: ObjectState)
  {
    && t.current.None? && !t.nextSection && !t.allProcessed
    && t.name == s.name
    && t.endTimestampSet == s.endTimestampSet && t.endTimestamp == s.endTimestamp
    && t.endTimePosition == s.endTimePosition && t.endFrameNumber == s.endFrameNumber
    && (forall k :: k in t.sections ==> k in s.sections && k != oldTimestamp && t.sections[k] == s.sections[k].(tracker := None))
    && SubmapOf(t.trajectory, s.trajectory)
    && t.initialTimestamp <= newTimestamp
    && (t.initialTimestamp in t.sections || t.initialTimestamp == newTimestamp)
    && (forall k :: k in t.sections ==> t.initialTimestamp <= k)
  }

  lemma DetachIsDetached(s: ObjectState, oldTimestamp: int, newTimestamp: int)
    requires Valid(s) && oldTimestamp in s.sections
    ensures DetachedFrom(s, oldTimestamp, newTimestamp, Detach(s, oldTimestamp, newTimestamp))
  {
    var t := Detach(s, oldTimestamp, newTimestamp);
    ResetFacts(s);
    if oldTimestamp == s.initialTimestamp {
      DetachBeginning(s, oldTimestamp, newTimestamp);
    } else {
      DetachMiddle(s, oldTimestamp, newTimestamp);
    }
    EvictedIsSubmap(t.trajectory, s.trajectory);
  }

  lemma AddAfterDetach(s: ObjectState, oldTimestamp: int, newTimestamp: int, t: ObjectState,
                       position: Box, timePosition: nat, frameNumber: nat)
    requires Valid(s) && DetachedFrom(s, oldTimestamp, newTimestamp, t)
    requires newTimestamp !in t.sections
    requires !(s.endTimestampSet && s.endTimestamp < newTimestamp)
    ensures Changed(s, oldTimestamp, newTimestamp, position, timePosition, frameNumber,
                    AddSection(t, newTimestamp, position, timePosition, frameNumber))
  {
    var r := AddSection(t, newTimestamp, position, timePosition, frameNumber);
    assert forall k :: k in r.sections ==> (r.sections[k].tracker.Some? <==> r.current == Some(k));
  }

  lemma InPlaceAfterDetach(s: ObjectState, oldTimestamp: int, newTimestamp: int, t: ObjectState,
                           position: Box, timePosition: nat, frameNumber: nat, r: ObjectState)
    requires Valid(s) && DetachedFrom(s, oldTimestamp, newTimestamp, t)
    requires newTimestamp in t.sections
    requires InPlaceOf(t, newTimestamp, position, timePosition, frameNumber, r)
    ensures Changed(s, oldTimestamp, newTimestamp, position, timePosition, frameNumber, r)
  {
    EvictedIsSubmap(r.trajectory, t.trajectory);
    SubmapTrans(r.trajectory, t.trajectory, s.trajectory);
  }

  /** `change_trajectory_section` refuses a section after a set end and
      then changes nothing. */
  lemma ChangeSectionRejectsAfterEnd(s: ObjectState, oldTimestamp: int, newTimestamp: int,
                                     position: Box, timePosition: nat, frameNumber: nat)
    requires Valid(s) && oldTimestamp in s.sections
    requires s.endTimestampSet && s.endTimestamp < newTimestamp
    ensures ChangeSection(s, oldTimestamp, newTimestamp, position, timePosition, frameNumber) == (s, false)
  {
  }

  /** Otherwise it succeeds and keeps the invariant, with the effects
      `Changed` lists. */
  lemma {:induction false} ChangeSectionEffects(s: ObjectState, oldTimestamp: int, newTimestamp: int,
                                                position: Box, timePosition: nat, frameNumber: nat)
    requires Valid(s) && oldTimestamp in s.sections
    requires !(s.endTimestampSet && s.endTimestamp < newTimestamp)
    ensures ChangeSection(s, oldTimestamp, newTimestamp, position, timePosition, frameNumber).1
    ensures Changed(s, oldTimestamp, newTimestamp, position, timePosition, frameNumber,
                    ChangeSection(s, oldTimestamp, newTimestamp, position, timePosition, frameNumber).0)
    ensures ChangedCache(s, oldTimestamp, newTimestamp,
                         ChangeSection(s, oldTimestamp, newTimestamp, position, timePosition, frameNumber).0.trajectory)
  {
    ChangeSectionCache(s, oldTimestamp, newTimestamp, position, timePosition, frameNumber);
    var t := Detach(s, oldTimestamp, newTimestamp);
    DetachIsDetached(s, oldTimestamp, newTimestamp);
    if newTimestamp in t.sections {
      assert Valid(t);
      ChangeInPlace(t, newTimestamp, position, timePosition, frameNumber);
      assert ChangeSection(s, oldTimestamp, newTimestamp, position, timePosition, frameNumber)
          == ChangeSection(t, newTimestamp, newTimestamp, position, timePosition, frameNumber);
      InPlaceAfterDetach(s, oldTimestamp, newTimestamp, t, position, timePosition, frameNumber,
                         ChangeSection(t, newTimestamp, newTimestamp, position, timePosition, frameNumber).0);
    } else {
      assert ChangeSection(s, oldTimestamp, newTimestamp, position, timePosition, frameNumber)
          == (AddSection(t, newTimestamp, position, timePosition, frameNumber), true);
      AddAfterDetach(s, oldTimestamp, newTimestamp, t, position, timePosition, frameNumber);
    }
  }

  /** Changing the Beginning section empties the cache and moves the
      Beginning to `newTimestamp`; the sections kept are those from
      `newTimestamp` on, which is none but the moved one when no other
      section starts exactly at `newTimestamp`. */
  lemma {:induction false} ChangeSectionBeginning(s: ObjectState, oldTimestamp: int, newTimestamp: int,
                                                  position: Box, timePosition: nat, frameNumber: nat)
    requires Valid(s) && oldTimestamp in s.sections && oldTimestamp == s.initialTimestamp
    requires !(s.endTimestampSet && s.endTimestamp < newTimestamp)
    ensures var r := ChangeSection(s, oldTimestamp, newTimestamp, position, timePosition, frameNumber).0;
      && r.trajectory == map[]
      && r.initialTimestamp == newTimestamp
      && forall k :: k in r.sections <==> k == newTimestamp || (newTimestamp in s.sections && k in s.sections && newTimestamp <= k)
  {
    var t := Detach(s, oldTimestamp, newTimestamp);
    ResetFacts(s);
    DetachBeginning(s, oldTimestamp, newTimestamp);
    if newTimestamp in t.sections {
      assert Valid(t);
      ChangeInPlace(t, newTimestamp, position, timePosition, frameNumber);
    }
  }

  /** Changing a section other than the Beginning: that section alone moves,
      the Beginning moves only when the section moves before it, and the
      cache keeps exactly its entries below the cut keys of `MiddleCuts`
      (the current section's start, `newTimestamp`, and the start of the
      section before when the section moves later, each when cached). */
  lemma {:induction false} ChangeSectionMiddle(s: ObjectState, oldTimestamp: int, newTimestamp: int,
                                               position: Box, timePosition: nat, frameNumber: nat)
    requires Valid(s) && oldTimestamp in s.sections && oldTimestamp != s.initialTimestamp
    requires !(s.endTimestampSet && s.endTimestamp < newTimestamp)
    ensures s.initialTimestamp < oldTimestamp
    ensures var r := ChangeSection(s, oldTimestamp, newTimestamp, position, timePosition, frameNumber).0;
      && r.initialTimestamp == (if newTimestamp < s.initialTimestamp then newTimestamp else s.initialTimestamp)
      && (forall k :: k in r.sections <==> k == newTimestamp || (k in s.sections && k != oldTimestamp))
      && ChangedCache(s, oldTimestamp, newTimestamp, r.trajectory)
  {
    MiddleChangeCache(s, oldTimestamp, newTimestamp, position, timePosition, frameNumber);
    LeastIsInitial(s);
    var t := Detach(s, oldTimestamp, newTimestamp);
    ResetFacts(s);
    DetachMiddle(s, oldTimestamp, newTimestamp);
    if newTimestamp in t.sections {
      assert Valid(t);
      ChangeInPlace(t, newTimestamp, position, timePosition, frameNumber);
    }
  }

  /** `a` holds exactly the entries of `m` that lie below every cut key `m`
      caches, unchanged: what erasing from each found cut key leaves,
      whatever the order of the erasures. */
  ghost predicate BelowCuts(a: map<int, Entry>, m: map<int, Entry>, cuts: set<int>)
  {
    && (forall k :: k in a <==> k in m && Under(k, m, cuts))
    && SubmapOf(a, m)
  }

  /** `k` lies below every cut key `m` caches. */
  ghost predicate Under(k: int, m: map<int, Entry>, cuts: set<int>)
  {
    forall c :: c in cuts && c in m ==> k < c
  }

  lemma NoCuts(m: map<int, Entry>)
    ensures BelowCuts(m, m, {})
  {
  }

  /** One more `erase(find(x), end())` adds `x` to the cut keys: it cuts
      when `x` is still cached, and when `x` is cached but already erased
      an earlier cut lies at or below it. */
  lemma CutAgain(m: map<int, Entry>, a: map<int, Entry>, cuts: set<int>, x: int)
    requires BelowCuts(a, m, cuts)
    ensures BelowCuts(EraseFromFound(a, x), m, cuts + {x})
  {
    var r := EraseFromFound(a, x);
    var more := cuts + {x};
    if x in a {
      forall k | k in m && Under(k, m, more)
        ensures k in r
      {
        assert x in more;
      }
      forall k | k in r
        ensures Under(k, m, more)
      {
      }
    } else if x in m {
      var c :| c in cuts && c in m && x >= c;
      forall k | k in a
        ensures Under(k, m, more)
      {
        assert k < c;
      }
    } else {
      forall k | k in m && Under(k, m, cuts)
        ensures Under(k, m, more)
      {
      }
    }
  }

  /** The cut keys of `change_trajectory_section` for a section other than
      the Beginning: the current section's start (the reset deletes its
      tracker and the cache from there), `newTimestamp`, and the start of
      the section before the old one when the section moves later. */
  ghost function MiddleCuts(s: ObjectState, oldTimestamp: int, newTimestamp: int): set<int>
    requires Valid(s) && oldTimestamp in s.sections && oldTimestamp != s.initialTimestamp
  {
    assert s.initialTimestamp in s.sections && s.initialTimestamp < oldTimestamp;
    (if s.current.Some? then {s.current.value} else {}) + {newTimestamp}
      + (if oldTimestamp < newTimestamp then {Predecessor(s.sections.Keys, oldTimestamp)} else {})
  }

  /** The cache a successful `change_trajectory_section` leaves: nothing
      when the Beginning is changed or a section is moved onto the
      Beginning's timestamp (the in-place change of the Beginning clears
      it), and otherwise exactly the entries below every cached cut key. */
  ghost predicate ChangedCache(s: ObjectState, oldTimestamp: int, newTimestamp: int, a: map<int, Entry>)
    requires Valid(s) && oldTimestamp in s.sections
  {
    if oldTimestamp == s.initialTimestamp || newTimestamp == s.initialTimestamp then a == map[]
    else BelowCuts(a, s.trajectory, MiddleCuts(s, oldTimestamp, newTimestamp))
  }

  /** Detaching a section other than the Beginning erases the cache from
      each of its cut keys. */
  lemma DetachMiddleCache(s: ObjectState, oldTimestamp: int, newTimestamp: int)
    requires Valid(s) && oldTimestamp in s.sections && oldTimestamp != s.initialTimestamp
    ensures BelowCuts(Detach(s, oldTimestamp, newTimestamp).trajectory, s.trajectory, MiddleCuts(s, oldTimestamp, newTimestamp))
  {
    LeastIsInitial(s);
    var m := s.trajectory;
    NoCuts(m);
    var current: set<int> := if s.current.Some? then {s.current.value} else {};
    var t1 := Reset(s);
    if s.current.Some? {
      assert t1.trajectory == EraseFromFound(m, s.current.value);
      CutAgain(m, m, {}, s.current.value);
      assert {} + {s.current.value} == current;
    } else {
      assert t1.trajectory == m;
    }
    CutAgain(m, t1.trajectory, current, newTimestamp);
    var cut := EraseFromFound(t1.trajectory, newTimestamp);
    if oldTimestamp < newTimestamp {
      CutAgain(m, cut, current + {newTimestamp}, Predecessor(s.sections.Keys, oldTimestamp));
    }
  }

  /** Changing a section other than the Beginning in place, on a state with
      no cursor, only erases the cache from the section's start. */
  lemma InPlaceCache(t: ObjectState, x: int, position: Box, timePosition: nat, frameNumber: nat)
    requires Valid(t) && x in t.sections && t.current.None? && x != t.initialTimestamp
    requires !(t.endTimestampSet && t.endTimestamp < x)
    ensures ChangeSection(t, x, x, position, timePosition, frameNumber).0.trajectory == EraseFromFound(t.trajectory, x)
  {
    LeastIsInitial(t);
    var d := Detach(t, x, x);
    assert d.trajectory == EraseFromFound(t.trajectory, x);
    assert ChangeSection(t, x, x, position, timePosition, frameNumber)
        == (AddSection(d, x, position, timePosition, frameNumber), true);
  }

  /** The cache after a successful `change_trajectory_section`, entry by
      entry. */
  lemma ChangeSectionCache(s: ObjectState, oldTimestamp: int, newTimestamp: int,
                           position: Box, timePosition: nat, frameNumber: nat)
    requires Valid(s) && oldTimestamp in s.sections
    requires !(s.endTimestampSet && s.endTimestamp < newTimestamp)
    ensures ChangedCache(s, oldTimestamp, newTimestamp,
                         ChangeSection(s, oldTimestamp, newTimestamp, position, timePosition, frameNumber).0.trajectory)
  {
    if oldTimestamp == s.initialTimestamp {
      ChangeSectionBeginning(s, oldTimestamp, newTimestamp, position, timePosition, frameNumber);
    } else {
      MiddleChangeCache(s, oldTimestamp, newTimestamp, position, timePosition, frameNumber);
    }
  }

  /** Changing another section leaves the entries below every cached cut
      key, or none when it lands on the Beginning's timestamp. */
  lemma MiddleChangeCache(s: ObjectState, oldTimestamp: int, newTimestamp: int,
                          position: Box, timePosition: nat, frameNumber: nat)
    requires Valid(s) && oldTimestamp in s.sections && oldTimestamp != s.initialTimestamp
    requires !(s.endTimestampSet && s.endTimestamp < newTimestamp)
    ensures ChangedCache(s, oldTimestamp, newTimestamp,
                         ChangeSection(s, oldTimestamp, newTimestamp, position, timePosition, frameNumber).0.trajectory)
  {
    var t := Detach(s, oldTimestamp, newTimestamp);
    DetachMiddle(s, oldTimestamp, newTimestamp);
    DetachMiddleCache(s, oldTimestamp, newTimestamp);
    if newTimestamp in t.sections {
      ResetFacts(s);
      DetachIsDetached(s, oldTimestamp, newTimestamp);
      assert Valid(t);
      if newTimestamp == s.initialTimestamp {
        ChangeInPlace(t, newTimestamp, position, timePosition, frameNumber);
      } else {
        InPlaceCache(t, newTimestamp, position, timePosition, frameNumber);
      }
    }
  }

  /** `set_trajectory_section` refuses a section after a set end and then
      changes nothing; a section that already exists is changed in place
      instead of added. */
  lemma SetSectionDispatch(s: ObjectState, timestamp: int, position: Box, timePosition: nat, frameNumber: nat)
    requires Valid(s) && SetSectionDefined(s, timestamp)
    ensures s.endTimestampSet && s.endTimestamp < timestamp ==>
      SetSection(s, timestamp, position, timePosition, frameNumber) == (s, false)
    ensures !(s.endTimestampSet && s.endTimestamp < timestamp) && timestamp in s.sections ==>
      SetSection(s, timestamp, position, timePosition, frameNumber)
        == ChangeSection(s, timestamp, timestamp, position, timePosition, frameNumber)
  {
  }

  /** A new section before the Beginning becomes the Beginning and empties
      the cache; as written this branch keeps the cursor and its tracker. */
  lemma SetSectionBeforeBeginning(s: ObjectState, timestamp: int, position: Box, timePosition: nat, frameNumber: nat)
    requires Valid(s) && SetSectionDefined(s, timestamp)
    requires !(s.endTimestampSet && s.endTimestamp < timestamp) && timestamp !in s.sections
    requires timestamp < s.initialTimestamp
    ensures var (r, ok) := SetSection(s, timestamp, position, timePosition, frameNumber);
      && ok && Valid(r)
      && r.initialTimestamp == timestamp
      && r.trajectory == map[]
      && r.sections == s.sections[timestamp := NewSection(position, timestamp, timePosition, frameNumber)]
      && r.current == s.current && r.nextSection == s.nextSection
      && !r.allProcessed
  {
    var r := SetSection(s, timestamp, position, timePosition, frameNumber).0;
    if s.current.Some? {
      UpperBoundInsertBelow(s.sections.Keys, r.sections.Keys, s.current.value, timestamp);
    }
    assert forall k :: k in r.sections ==> (r.sections[k].tracker.Some? <==> r.current == Some(k));
  }

  /** A new section at or before the cache frontier drops the tracker and
      the cursor, and erases the cache from `timestamp` on when that is
      cached (a `find` that misses erases nothing). */
  lemma SetSectionBehindFrontier(s: ObjectState, timestamp: int, position: Box, timePosition: nat, frameNumber: nat)
    requires Valid(s) && SetSectionDefined(s, timestamp)
    requires !(s.endTimestampSet && s.endTimestamp < timestamp) && timestamp !in s.sections
    requires s.initialTimestamp <= timestamp
    requires LastProcessed(s).Some? && timestamp <= LastProcessed(s).value
    ensures var (r, ok) := SetSection(s, timestamp, position, timePosition, frameNumber);
      && ok && Valid(r)
      && r.current.None? && !r.nextSection && !r.allProcessed
      && (forall k :: k in r.sections ==> r.sections[k].tracker.None?)
      && r.sections.Keys == s.sections.Keys + {timestamp}
      && (timestamp in s.trajectory ==> forall k :: k in r.trajectory <==> k in s.trajectory && k < timestamp)
      && (timestamp !in s.trajectory ==> r.trajectory == s.trajectory)
      && SubmapOf(r.trajectory, s.trajectory)
  {
    var r := SetSection(s, timestamp, position, timePosition, frameNumber).0;
    assert forall k :: k in r.sections ==> r.sections[k].tracker.None?;
  }

  /** A new section past the frontier keeps the cache and the cursor; the
      next-section pointer becomes `upper_bound` of the current section's
      start, which is the new section exactly when it is the first one after
      the current section. */
  lemma SetSectionPastFrontier(s: ObjectState, timestamp: int, position: Box, timePosition: nat, frameNumber: nat)
    requires Valid(s) && SetSectionDefined(s, timestamp)
    requires !(s.endTimestampSet && s.endTimestamp < timestamp) && timestamp !in s.sections
    requires s.initialTimestamp <= timestamp
    requires LastProcessed(s).None? || LastProcessed(s).value < timestamp
    ensures s.current.Some?
    ensures var (r, ok) := SetSection(s, timestamp, position, timePosition, frameNumber);
      && ok && Valid(r)
      && r.trajectory == s.trajectory
      && r.current == s.current && !r.allProcessed
      && r.sections == s.sections[timestamp := NewSection(position, timestamp, timePosition, frameNumber)]
      && (r.nextSection && r.nextSectionTimestamp == timestamp <==>
            s.current.value < timestamp && forall k :: k in s.sections && s.current.value < k ==> timestamp < k)
  {
    var c := s.current.value;
    var a := AddSection(s, timestamp, position, timePosition, frameNumber).(allProcessed := false);
    assert a.sections[c].initialTimestamp == c;
    assert InsertSection(s, timestamp, position, timePosition, frameNumber) == NextAfter(a, c);
    NextAfterInserted(s, a, c, timestamp);
  }

  /** Pointing the next section past the current one once a section with
      no tracker is inserted at `timestamp`. */
  lemma NextAfterInserted(s: ObjectState, a: ObjectState, c: int, timestamp: int)
    requires Valid(s) && s.current == Some(c) && timestamp !in s.sections
    requires timestamp in a.sections && a.sections[timestamp].tracker.None?
    requires a.sections[timestamp].initialTimestamp == timestamp && s.initialTimestamp <= timestamp
    requires a == s.(sections := s.sections[timestamp := a.sections[timestamp]], allProcessed := false)
    ensures var r := NextAfter(a, c);
      && Valid(r) && r.sections == a.sections && r.current == s.current && r.trajectory == s.trajectory
      && (r.nextSection && r.nextSectionTimestamp == timestamp <==>
            c < timestamp && forall k :: k in s.sections && c < k ==> timestamp < k)
  {
    assert forall k :: k in a.sections ==> (a.sections[k].tracker.Some? <==> a.current == Some(k));
    UpperBoundInserted(s.sections.Keys, a.sections.Keys, c, timestamp);
  }

  /** `set_trajectory_section` keeps the invariant and never places a
      section after a set end. */
  lemma SetSectionKeepsValid(s: ObjectState, timestamp: int, position: Box, timePosition: nat, frameNumber: nat)
    requires Valid(s) && SetSectionDefined(s, timestamp)
    ensures Valid(SetSection(s, timestamp, position, timePosition, frameNumber).0)
    ensures WithinEnd(s) ==> WithinEnd(SetSection(s, timestamp, position, timePosition, frameNumber).0)
  {
    if s.endTimestampSet && s.endTimestamp < timestamp {
    } else if timestamp in s.sections {
      ChangeSectionEffects(s, timestamp, timestamp, position, timePosition, frameNumber);
    } else if timestamp < s.initialTimestamp {
      SetSectionBeforeBeginning(s, timestamp, position, timePosition, frameNumber);
    } else if LastProcessed(s).Some? && timestamp <= LastProcessed(s).value {
      SetSectionBehindFrontier(s, timestamp, position, timePosition, frameNumber);
    } else {
      SetSectionPastFrontier(s, timestamp, position, timePosition, frameNumber);
    }
  }

  /** The Beginning section cannot be deleted. */
  lemma DeleteSectionRejectsBeginning(s: ObjectState)
    requires Valid(s)
    ensures DeleteSection(s, s.initialTimestamp) == (s, false)
  {
  }

  /** Any other timestamp: its section (if there is one) is removed, the
      other sections stay, and the cache is erased from the start of the
      section before it, which is the last section when the timestamp is not
      a section at all.  A cursor at or after the timestamp is dropped, and
      a next-section pointer at it moves on. */
  lemma DeleteSectionEffects(s: ObjectState, timestamp: int)
    requires Valid(s) && timestamp != s.initialTimestamp
    ensures var (r, ok) := DeleteSection(s, timestamp);
      && ok && Valid(r)
      && (WithinEnd(s) ==> WithinEnd(r))
      && !r.allProcessed
      && (forall k :: k in r.sections <==> k in s.sections && k != timestamp)
      && (forall k :: k in r.sections ==> r.sections[k].(tracker := None) == s.sections[k].(tracker := None))
      && (s.current.Some? && s.current.value >= timestamp ==> r.current.None? && !r.nextSection)
      && (s.current.Some? && s.current.value < timestamp ==> r.current == s.current)
  {
    var t := StepCursorOff(s, timestamp);
    var r := DeleteSection(s, timestamp).0;
    StepCursorOffKeepsValid(s, timestamp);
    assert r.sections == t.sections - {timestamp};
    assert forall k :: k in r.sections ==> r.sections[k] == t.sections[k];
  }

  /** The cache after a deletion: erased from the start of the section
      before `timestamp` (the last section when `timestamp` is not a
      section), or untouched when that start is not cached. */
  lemma DeleteSectionCache(s: ObjectState, timestamp: int)
    requires Valid(s) && timestamp != s.initialTimestamp
    ensures s.sections.Keys != {} && (timestamp in s.sections ==> s.initialTimestamp < timestamp)
    ensures var r := DeleteSection(s, timestamp).0;
      var previous := StepBack(s.sections.Keys, timestamp);
      && (previous in s.trajectory ==> forall k :: k in r.trajectory <==> k in s.trajectory && k < previous)
      && (previous !in s.trajectory ==> r.trajectory == s.trajectory)
  {
    StepCursorOffFields(s, timestamp);
  }

  /** Deleting the section at `timestamp` from the state with the cursor
      moved off it keeps the invariant. */
  lemma StepCursorOffKeepsValid(s: ObjectState, timestamp: int)
    requires Valid(s) && timestamp != s.initialTimestamp
    ensures var t := StepCursorOff(s, timestamp);
      && Valid(t.(sections := t.sections - {timestamp}))
      && t.sections.Keys == s.sections.Keys
      && t.trajectory == s.trajectory
      && (forall k :: k in t.sections ==> t.sections[k].(tracker := None) == s.sections[k].(tracker := None))
      && (s.current.Some? && s.current.value >= timestamp ==> t.current.None? && !t.nextSection)
      && (s.current.Some? && s.current.value < timestamp ==> t.current == s.current)
  {
    StepCursorOffFields(s, timestamp);
    var keys := s.sections.Keys;
    var t := StepCursorOff(s, timestamp);
    if s.current.Some? && s.sections[s.current.value].initialTimestamp >= timestamp {
      UnsetRemoveKeepsValid(s, timestamp);
    } else if s.nextSection && s.nextSectionTimestamp == timestamp {
      var u := t.(sections := t.sections - {timestamp});
      assert forall k :: k in u.sections <==> k in keys && k != timestamp;
      UpperBoundRemoveNext(keys, u.sections.Keys, s.current.value, timestamp);
      NextMovedOn(s, timestamp, u);
    } else {
      RemoveOtherKeepsValid(s, timestamp);
    }
  }

  /** Stepping the cursor off a section touches only the cursor and the
      current tracker. */
  lemma StepCursorOffFields(s: ObjectState, timestamp: int)
    requires Valid(s)
    ensures var t := StepCursorOff(s, timestamp);
      && t.sections.Keys == s.sections.Keys
      && t.trajectory == s.trajectory
      && (forall k :: k in t.sections ==> t.sections[k].(tracker := None) == s.sections[k].(tracker := None))
      && (s.current.Some? && s.current.value >= timestamp ==> t.current.None? && !t.nextSection)
      && (s.current.Some? && s.current.value < timestamp ==> t.current == s.current)
  {
    if s.current.Some? && s.sections[s.current.value].initialTimestamp >= timestamp {
      assert StepCursorOff(s, timestamp) == Unset(s);
    } else if s.nextSection && s.nextSectionTimestamp == timestamp {
      assert StepCursorOff(s, timestamp) == NextAfter(s, timestamp);
    } else {
      assert StepCursorOff(s, timestamp) == s;
    }
  }

  /** Deleting a section at or before the current one: the cursor is
      cleared first. */
  lemma UnsetRemoveKeepsValid(s: ObjectState, timestamp: int)
    requires Valid(s) && timestamp != s.initialTimestamp
    ensures var t := Unset(s); Valid(t.(sections := t.sections - {timestamp}))
  {
    var t := Unset(s);
    var u := t.(sections := t.sections - {timestamp});
    assert forall k :: k in u.sections ==> u.sections[k].tracker.None?;
  }

  /** Deleting a section that is neither the current nor the next one. */
  lemma RemoveOtherKeepsValid(s: ObjectState, timestamp: int)
    requires Valid(s) && timestamp != s.initialTimestamp
    requires s.current.Some? ==> s.current.value < timestamp
    requires !(s.nextSection && s.nextSectionTimestamp == timestamp)
    ensures Valid(s.(sections := s.sections - {timestamp}))
  {
    var u := s.(sections := s.sections - {timestamp});
    assert forall k :: k in u.sections <==> k in s.sections && k != timestamp;
    if s.nextSection {
      UpperBoundRemoveOther(s.sections.Keys, u.sections.Keys, s.current.value, timestamp);
    }
  }

  lemma NextMovedOn(s: ObjectState, timestamp: int, u: ObjectState)
    requires Valid(s) && timestamp != s.initialTimestamp
    requires s.current.Some? && s.current.value < timestamp
    requires u == NextAfter(s, timestamp).(sections := s.sections - {timestamp})
    requires UpperBound(u.sections.Keys, s.current.value) == UpperBound(s.sections.Keys, timestamp)
    ensures Valid(u)
  {
  }

  /** Unsetting the end: tracking runs to the end of the video again, and a
      fully processed cache is cut at the start of the last section. */
  lemma ChangeEndFrameUnset(s: ObjectState, timestamp: int, timePosition: nat, frameNumber: nat)
    requires Valid(s)
    ensures var (r, ok) := ChangeEndFrame(s, false, timestamp, timePosition, frameNumber);
      && ok && Valid(r) && WithinEnd(r)
      && !r.endTimestampSet && !r.allProcessed
      && r.sections == s.sections && r.current == s.current
      && (!s.allProcessed ==> r.trajectory == s.trajectory)
      && (s.allProcessed && Greatest(s.sections.Keys) in s.trajectory ==>
            forall k :: k in r.trajectory <==> k in s.trajectory && k < Greatest(s.sections.Keys))
  {
  }

  /** An end before the Beginning is refused and changes nothing. */
  lemma ChangeEndFrameRejectsEarly(s: ObjectState, timestamp: int, timePosition: nat, frameNumber: nat)
    requires Valid(s) && timestamp < s.initialTimestamp
    ensures ChangeEndFrame(s, true, timestamp, timePosition, frameNumber) == (s, false)
  {
  }

  /** Setting the end at `timestamp`: afterwards no section and no cache
      entry lies after it, the surviving cache is a submap of the old one,
      and the object is fully processed exactly when the cache reaches the
      end. */
  lemma ChangeEndFrameBounds(s: ObjectState, timestamp: int, timePosition: nat, frameNumber: nat)
    requires Valid(s) && s.initialTimestamp <= timestamp
    ensures var (r, ok) := ChangeEndFrame(s, true, timestamp, timePosition, frameNumber);
      && ok && Valid(r) && WithinEnd(r)
      && r.endTimestampSet && r.endTimestamp == timestamp
      && r.endTimePosition == timePosition && r.endFrameNumber == frameNumber
      && (forall k :: k in r.sections <==> k in s.sections && k <= timestamp)
      && (forall k :: k in r.trajectory ==> k <= timestamp)
      && SubmapOf(r.trajectory, s.trajectory)
      && (r.allProcessed <==> timestamp in r.trajectory)
      && (r.allProcessed ==> r.current.None?)
  {
    var t1 := CutCacheAtEnd(s, timestamp, timePosition, frameNumber);
    assert SubmapOf(t1.trajectory, s.trajectory);
    var t2 := ClipToEnd(t1);
    ClipToEndKeepsValid(t1);
    assert ChangeEndFrame(s, true, timestamp, timePosition, frameNumber).0
        == if timestamp in t2.trajectory then SetAllProcessed(t2, true) else t2;
    MarkIfReachesEnd(t2);
  }

  /** The cache after setting the end, entry by entry: the entries at or
      before the end stay unchanged, except that a fully processed object
      whose end moves later also loses the entries from the last section's
      start on, when that start is cached. */
  lemma ChangeEndFrameCache(s: ObjectState, timestamp: int, timePosition: nat, frameNumber: nat)
    requires Valid(s) && s.initialTimestamp <= timestamp
    ensures s.sections.Keys != {}
    ensures var r := ChangeEndFrame(s, true, timestamp, timePosition, frameNumber).0;
      var last := Greatest(s.sections.Keys);
      var cutAtLast := s.allProcessed && timestamp > s.endTimestamp && last in s.trajectory;
      && (forall k :: k in r.trajectory <==> k in s.trajectory && k <= timestamp && !(cutAtLast && last <= k))
      && SubmapOf(r.trajectory, s.trajectory)
  {
    var t1 := CutCacheAtEnd(s, timestamp, timePosition, frameNumber);
    var t2 := ClipToEnd(t1);
    ClipToEndKeepsValid(t1);
    assert ChangeEndFrame(s, true, timestamp, timePosition, frameNumber).0
        == if timestamp in t2.trajectory then SetAllProcessed(t2, true) else t2;
    MarkIfReachesEnd(t2);
  }

  /** The last step of setting the end: the object is marked processed
      exactly when the cache reaches the end. */
  lemma MarkIfReachesEnd(t: ObjectState)
    requires Valid(t) && t.endTimestampSet && !t.allProcessed
    requires forall k :: k in t.sections ==> k <= t.endTimestamp
    ensures var r := if t.endTimestamp in t.trajectory then SetAllProcessed(t, true) else t;
      && Valid(r) && WithinEnd(r)
      && r.trajectory == t.trajectory && r.sections.Keys == t.sections.Keys
      && r.endTimestampSet && r.endTimestamp == t.endTimestamp
      && r.endTimePosition == t.endTimePosition && r.endFrameNumber == t.endFrameNumber
      && (r.allProcessed <==> t.endTimestamp in r.trajectory)
      && (r.allProcessed ==> r.current.None?)
  {
  }

  /** The invariant reads only the Beginning, the sections and the cursor:
      edits of the cache and the end leave it alone. */
  lemma ValidIgnoresCache(s: ObjectState, t: ObjectState)
    requires Valid(s)
    requires t.initialTimestamp == s.initialTimestamp && t.sections == s.sections
    requires t.current == s.current && t.nextSection == s.nextSection
    requires t.nextSectionTimestamp == s.nextSectionTimestamp
    ensures Valid(t)
  {
  }

  /** Clipping the sections at the end keeps the invariant. */
  lemma ClipToEndKeepsValid(s: ObjectState)
    requires Valid(s) && s.initialTimestamp <= s.endTimestamp
    ensures var t := ClipToEnd(s);
      && Valid(t)
      && (forall k :: k in t.sections <==> k in s.sections && k <= s.endTimestamp)
      && t.trajectory == s.trajectory
      && t.endTimestampSet == s.endTimestampSet && t.endTimestamp == s.endTimestamp
      && t.endTimePosition == s.endTimePosition && t.endFrameNumber == s.endFrameNumber
      && t.allProcessed == s.allProcessed
  {
    var t :=
      if s.current.Some? && s.sections[s.current.value].initialTimestamp > s.endTimestamp
         && s.sections[s.current.value].tracker.Some?
      then Unset(s) else s;
    var t' := if t.nextSection && t.nextSectionTimestamp > t.endTimestamp then t.(nextSection := false) else t;
    StopBeforeEnd(s, t, t');
    AtMostKeepsValid(t', s.endTimestamp);
    assert ClipToEnd(s) == t'.(sections := AtMost(t'.sections, s.endTimestamp));
  }

  /** The cursor step of clipping: no current and no next section is left
      after the end. */
  lemma StopBeforeEnd(s: ObjectState, t: ObjectState, t': ObjectState)
    requires Valid(s)
    requires t ==
      if s.current.Some? && s.sections[s.current.value].initialTimestamp > s.endTimestamp
         && s.sections[s.current.value].tracker.Some?
      then Unset(s) else s
    requires t' == if t.nextSection && t.nextSectionTimestamp > t.endTimestamp then t.(nextSection := false) else t
    ensures Valid(t') && t'.sections.Keys == s.sections.Keys
    ensures t'.current.Some? ==> t'.current.value <= s.endTimestamp
    ensures t'.nextSection ==> t'.nextSectionTimestamp <= s.endTimestamp
    ensures t'.trajectory == s.trajectory && t'.endTimestamp == s.endTimestamp
    ensures t'.endTimestampSet == s.endTimestampSet
    ensures t'.endTimePosition == s.endTimePosition && t'.endFrameNumber == s.endFrameNumber
    ensures t'.allProcessed == s.allProcessed
  {
    if t != s {
      assert forall k :: k in t.sections ==> t.sections[k].tracker.None?;
    }
  }

  /** Erasing the sections after `e` keeps the invariant when the Beginning,
      the current and the next section lie at or before `e`. */
  lemma AtMostKeepsValid(t: ObjectState, e: int)
    requires Valid(t) && t.initialTimestamp <= e
    requires t.current.Some? ==> t.current.value <= e
    requires t.nextSection ==> t.nextSectionTimestamp <= e
    ensures Valid(t.(sections := AtMost(t.sections, e)))
  {
    var r := t.(sections := AtMost(t.sections, e));
    if t.nextSection {
      UpperBoundTruncate(t.sections.Keys, r.sections.Keys, t.current.value, e);
    }
  }
}
