/** The per-object trajectory store of `TrackedObject`, as a value.

    An object keeps two maps keyed by frame timestamp: the reference boxes
    the user set (`trajectorySections`) and the boxes the tracker computed
    (`trajectory`, a cache).  A cursor names the section whose tracker is
    live (`currentSection`) and the start of the following one
    (`nextSection`/`nextSectionTimestamp`); `allProcessed` says the cache
    covers the whole life of the object.  Every operation below is the
    effect of one `TrackedObject` member on that state, with `std::map`
    range erasures taken from `OrderedMaps`; the class in `TrackedObjects`
    is proved to have exactly these effects. */
module TrajectoryStore {
  import opened Common
  import opened OrderedMaps

  /** `TrajectorySection`: a reference box set by the user at a frame, and
      the tracker the section owns while it is the current one. */
  datatype Section = Section(
    initialPosition: Box,
    initialTimestamp: int,
    initialTimePosition: nat,
    initialFrameNumber: nat,
    tracker: Option<TrackerState>)

  /** `TrajectoryEntry`: a computed box for one frame. */
  datatype Entry = Entry(position: Box, timePosition: nat, frameNumber: nat)

  /** The fields of a `TrackedObject`.  `current` is the key of the section
      `currentSection` points at; the appearance is not part of the store. */
  datatype ObjectState = ObjectState(
    name: string,
    initialTimestamp: int,
    endTimestampSet: bool,
    endTimestamp: int,
    endTimePosition: nat,
    endFrameNumber: nat,
    sections: map<int, Section>,
    trajectory: map<int, Entry>,
    current: Option<int>,
    nextSection: bool,
    nextSectionTimestamp: int,
    allProcessed: bool)

  /** Both `TrajectorySection` constructors: the new section owns no
      tracker. */
  function NewSection(position: Box, timestamp: int, timePosition: nat, frameNumber: nat): Section
  {
    Section(position, timestamp, timePosition, frameNumber, None)
  }

  /** The state the full `TrackedObject` constructor builds: one Beginning
      section, an empty cache and no cursor. */
  function Initial(name: string, timestamp: int, position: Box, timePosition: nat, frameNumber: nat,
                   endSet: bool, endTimestamp: int, endTimePosition: nat, endFrameNumber: nat): (s: ObjectState)
    ensures Valid(s)
  {
    ObjectState(name, timestamp, endSet, endTimestamp, endTimePosition, endFrameNumber,
                map[timestamp := NewSection(position, timestamp, timePosition, frameNumber)],
                map[], None, false, 0, false)
  }

  /** Every entry of `a` is an unchanged entry of `b`: what the cache
      erasures leave. */
  predicate SubmapOf(a: map<int, Entry>, b: map<int, Entry>)
  {
    forall k :: k in a ==> k in b && a[k] == b[k]
  }

  /** `a` is `m` with at most one tail erased: unchanged, cleared, or cut
      by `erase(find(c), end())` at a cached `c`. */
  predicate Evicted(a: map<int, Entry>, m: map<int, Entry>)
  {
    a == m || a == map[] || exists c :: c in m && a == Below(m, c)
  }

  /** The class invariant the edit operations and `track_next` keep. */
  predicate Valid(s: ObjectState)
  {
    && s.initialTimestamp in s.sections
    && (forall k :: k in s.sections ==> s.initialTimestamp <= k)
    && (forall k :: k in s.sections ==> s.sections[k].initialTimestamp == k)
    && (forall k :: k in s.sections ==> (s.sections[k].tracker.Some? <==> s.current == Some(k)))
    && (s.current.Some? ==> s.current.value in s.sections)
    && (s.nextSection ==> s.current.Some? && UpperBound(s.sections.Keys, s.current.value) == Some(s.nextSectionTimestamp))
  }

  /** No section starts after a set end. */
  predicate WithinEnd(s: ObjectState)
  {
    s.endTimestampSet ==> forall k :: k in s.sections ==> k <= s.endTimestamp
  }

  /** `currentSection` is null or points into the section map. */
  predicate CurrentInSections(s: ObjectState)
  {
    s.current.Some? ==> s.current.value in s.sections
  }

  /** The sections after the current section's tracker is deleted. */
  function Released(m: map<int, Section>, c: Option<int>): (r: map<int, Section>)
    ensures r.Keys == m.Keys
  {
    if c.Some? && c.value in m then m[c.value := m[c.value].(tracker := None)] else m
  }

  /** Deleting the current tracker and clearing the cursor. */
  function Unset(s: ObjectState): ObjectState
  {
    s.(sections := Released(s.sections, s.current), current := None, nextSection := false)
  }

  /** `nextSection`/`nextSectionTimestamp` from `upper_bound(key)`. */
  function NextAfter(s: ObjectState, key: int): ObjectState
  {
    var n := UpperBound(s.sections.Keys, key);
    if n.Some? then s.(nextSection := true, nextSectionTimestamp := n.value) else s.(nextSection := false)
  }

  /** `add_section`: `std::map::insert`, which keeps an existing entry. */
  function AddSection(s: ObjectState, timestamp: int, position: Box, timePosition: nat, frameNumber: nat): ObjectState
  {
    if timestamp in s.sections then s
    else s.(sections := s.sections[timestamp := NewSection(position, timestamp, timePosition, frameNumber)])
  }

  /** `get_last_processed_timestamp`: the greatest cached timestamp, or
      None when nothing is cached. */
  function LastProcessed(s: ObjectState): (r: Option<int>)
    ensures r.None? <==> s.trajectory.Keys == {}
    ensures r.Some? ==> r.value in s.trajectory && forall k :: k in s.trajectory ==> k <= r.value
  {
    if s.trajectory.Keys == {} then None else Some(Greatest(s.trajectory.Keys))
  }

  /** `get_position`: the cached box at a timestamp, if any. */
  function GetPosition(s: ObjectState, timestamp: int): (r: Option<Box>)
    ensures r.Some? <==> timestamp in s.trajectory
    ensures r.Some? ==> r.value == s.trajectory[timestamp].position
  {
    if timestamp in s.trajectory then Some(s.trajectory[timestamp].position) else None
  }

  /** `set_all_processed`: setting the flag also drops the tracker and the
      cursor; clearing it touches nothing else. */
  function SetAllProcessed(s: ObjectState, processed: bool): ObjectState
  {
    if processed then Unset(s).(allProcessed := true) else s.(allProcessed := false)
  }

  /** `set_trajectory_section` dereferences `currentSection` only in its
      last branch, a section past the cache frontier. */
  predicate SetSectionDefined(s: ObjectState, timestamp: int)
  {
    || (s.endTimestampSet && s.endTimestamp < timestamp)
    || timestamp in s.sections
    || timestamp < s.initialTimestamp
    || (LastProcessed(s).Some? && timestamp <= LastProcessed(s).value)
    || s.current.Some?
  }

  /** `set_trajectory_section`: adds a section, or changes the one already
      at `timestamp`; false when it would start after a set end. */
  function SetSection(s: ObjectState, timestamp: int, position: Box, timePosition: nat, frameNumber: nat): (ObjectState, bool)
    requires CurrentInSections(s)
    requires SetSectionDefined(s, timestamp)
  {
    if s.endTimestampSet && s.endTimestamp < timestamp then (s, false)
    else if timestamp in s.sections then ChangeSection(s, timestamp, timestamp, position, timePosition, frameNumber)
    else (InsertSection(s, timestamp, position, timePosition, frameNumber), true)
  }

  /** `set_trajectory_section` for a timestamp with no section yet: the new
      section goes in, and the cache and cursor follow where it lands. */
  function InsertSection(s: ObjectState, timestamp: int, position: Box, timePosition: nat, frameNumber: nat): ObjectState
    requires CurrentInSections(s)
    requires SetSectionDefined(s, timestamp) && timestamp !in s.sections
    requires !(s.endTimestampSet && s.endTimestamp < timestamp)
  {
    var last := LastProcessed(s);
    var a := AddSection(s, timestamp, position, timePosition, frameNumber).(allProcessed := false);
    if timestamp < s.initialTimestamp then
      a.(initialTimestamp := timestamp, trajectory := map[])
    else if last.Some? && timestamp <= last.value then DropCacheFrom(a, timestamp)
    else
      NextAfter(a, a.sections[a.current.value].initialTimestamp)
  }

  /** A section inserted behind the last processed frame: the cursor is
      cleared and the cache erased from the new section on. */
  function DropCacheFrom(a: ObjectState, timestamp: int): ObjectState
  {
    var u := if a.current.Some? then Unset(a) else a;
    u.(trajectory := EraseFromFound(u.trajectory, timestamp))
  }

  /** `change_trajectory_section`: moves the section at `oldTimestamp` to
      `newTimestamp` with a new box, and evicts the cache that the move
      makes stale; false when it would start after a set end.  When a
      section already starts at `newTimestamp`, it is changed in place by a
      second call. */
  function ChangeSection(s: ObjectState, oldTimestamp: int, newTimestamp: int,
                         position: Box, timePosition: nat, frameNumber: nat): (ObjectState, bool)
    requires oldTimestamp in s.sections
    requires CurrentInSections(s)
    decreases if oldTimestamp == newTimestamp then 0 else 1
  {
    if s.endTimestampSet && s.endTimestamp < newTimestamp then (s, false)
    else
      var t := Detach(s, oldTimestamp, newTimestamp);
      if newTimestamp in t.sections then ChangeSection(t, newTimestamp, newTimestamp, position, timePosition, frameNumber)
      else (AddSection(t, newTimestamp, position, timePosition, frameNumber), true)
  }

  /** What `change_trajectory_section` does before it re-inserts the
      section: drop the tracker and the cursor, evict the cache, move the
      Beginning if needed, and erase the old section. */
  function Detach(s: ObjectState, oldTimestamp: int, newTimestamp: int): (t: ObjectState)
    requires oldTimestamp in s.sections
    requires CurrentInSections(s)
    ensures oldTimestamp !in t.sections
  {
    var t1 := Reset(s);
    var keys := s.sections.Keys;
    var t2 :=
      if oldTimestamp == Least(keys) then
        t1.(trajectory := map[], sections := EraseBeforeFound(t1.sections, newTimestamp),
            initialTimestamp := newTimestamp)
      else
        assert Least(keys) < oldTimestamp;
        var cut := EraseFromFound(t1.trajectory, newTimestamp);
        var initial := if newTimestamp < t1.initialTimestamp then newTimestamp else t1.initialTimestamp;
        var cut' := if oldTimestamp < newTimestamp then EraseFromFound(cut, Predecessor(keys, oldTimestamp)) else cut;
        t1.(trajectory := cut', initialTimestamp := initial);
    t2.(sections := t2.sections - {oldTimestamp})
  }

  /** The first step of `change_trajectory_section`: a live tracker is
      deleted together with the cache from its section's start, and the
      cursor and `allProcessed` are cleared. */
  function Reset(s: ObjectState): (t: ObjectState)
    requires CurrentInSections(s)
  {
    var t0 :=
      if s.current.Some? && s.sections[s.current.value].tracker.Some? then
        s.(trajectory := EraseFromFound(s.trajectory, s.sections[s.current.value].initialTimestamp),
           sections := Released(s.sections, s.current))
      else s;
    t0.(current := None, nextSection := false, allProcessed := false)
  }

  /** `delete_trajectory_section`: removes a section other than the
      Beginning and evicts the cache from the previous section on.  The
      timestamp is not checked to be a section: when it is not, nothing is
      removed and the cache is cut at the last section. */
  function DeleteSection(s: ObjectState, timestamp: int): (ObjectState, bool)
    requires Valid(s)
  {
    if timestamp == s.initialTimestamp then (s, false)
    else
      var t := StepCursorOff(s, timestamp);
      var keys := s.sections.Keys;
      var previous := StepBack(keys, timestamp);
      (t.(allProcessed := false, sections := t.sections - {timestamp},
          trajectory := EraseFromFound(t.trajectory, previous)), true)
  }

  /** The cursor update of `delete_trajectory_section`: a current section at
      or after the deleted one is dropped with its tracker; a next-section
      pointer at the deleted one moves on to `upper_bound` of it. */
  function StepCursorOff(s: ObjectState, timestamp: int): ObjectState
    requires CurrentInSections(s)
  {
    if s.current.Some? && s.sections[s.current.value].initialTimestamp >= timestamp then Unset(s)
    else if s.nextSection && s.nextSectionTimestamp == timestamp then NextAfter(s, timestamp)
    else s
  }

  /** `change_end_frame`: unsets the end, or sets it at `timestamp` and drops
      every section and cache entry after it; false when the end would come
      before the Beginning. */
  function ChangeEndFrame(s: ObjectState, setEnd: bool, timestamp: int, timePosition: nat, frameNumber: nat): (ObjectState, bool)
    requires Valid(s)
  {
    var last := Greatest(s.sections.Keys);
    if !setEnd then
      var cut := if s.allProcessed then EraseFromFound(s.trajectory, last) else s.trajectory;
      (s.(trajectory := cut, endTimestampSet := false, allProcessed := false), true)
    else if timestamp < s.initialTimestamp then (s, false)
    else (SetEnd(s, timestamp, timePosition, frameNumber), true)
  }

  /** The end set at `timestamp` by `change_end_frame`: a fully processed
      cache is first cut at the start of the last section when the end
      moves later, then every cache entry and section after the end is
      dropped, and the object is processed when its cache reaches the end. */
  function SetEnd(s: ObjectState, timestamp: int, timePosition: nat, frameNumber: nat): ObjectState
    requires Valid(s) && s.initialTimestamp <= timestamp
  {
    var t2 := ClipToEnd(CutCacheAtEnd(s, timestamp, timePosition, frameNumber));
    if timestamp in t2.trajectory then SetAllProcessed(t2, true) else t2
  }

  /** The cache side of setting the end: the new end is recorded and the
      cache loses every entry after it. */
  function CutCacheAtEnd(s: ObjectState, timestamp: int, timePosition: nat, frameNumber: nat): ObjectState
    requires Valid(s)
  {
    var last := Greatest(s.sections.Keys);
    var cut := if s.allProcessed && timestamp > s.endTimestamp then EraseFromFound(s.trajectory, last) else s.trajectory;
    s.(allProcessed := false, endTimestampSet := true, endTimestamp := timestamp,
       endTimePosition := timePosition, endFrameNumber := frameNumber,
       trajectory := EraseAfter(cut, timestamp))
  }

  /** The section side of setting the end: a current section after the end
      is dropped with its tracker, a next section after it is forgotten, and
      every section after it is erased. */
  function ClipToEnd(s: ObjectState): ObjectState
    requires CurrentInSections(s)
  {
    var t :=
      if s.current.Some? && s.sections[s.current.value].initialTimestamp > s.endTimestamp
         && s.sections[s.current.value].tracker.Some?
      then Unset(s) else s;
    var t' := if t.nextSection && t.nextSectionTimestamp > t.endTimestamp then t.(nextSection := false) else t;
    t'.(sections := AtMost(t'.sections, s.endTimestamp))
  }

  /** `track_next` needs a section after the frontier when it has to find
      one: it dereferences `upper_bound(last processed)`. */
  predicate TrackNextDefined(s: ObjectState)
  {
    && Valid(s)
    && (s.current.None? && s.trajectory.Keys != {} ==> UpperBound(s.sections.Keys, Greatest(s.trajectory.Keys)).Some?)
  }

  /** Whether `track_next` enters a new section at this frame. */
  predicate EntersSection(s: ObjectState, frame: Frame)
  {
    s.current.None? || (s.nextSection && frame.timestamp >= s.nextSectionTimestamp)
  }

  /** The section `track_next` enters: the Beginning when nothing is cached,
      the first section after the frontier when the cursor was cleared, and
      the next section otherwise. */
  function EnteredKey(s: ObjectState): (k: int)
    requires TrackNextDefined(s)
    requires s.current.Some? ==> s.nextSection
    ensures k in s.sections
  {
    if s.current.Some? then
      assert UpperBound(s.sections.Keys, s.current.value) == Some(s.nextSectionTimestamp);
      s.nextSectionTimestamp
    else if s.trajectory.Keys == {} then Least(s.sections.Keys)
    else UpperBound(s.sections.Keys, Greatest(s.trajectory.Keys)).value
  }

  /** The entered section takes over the tracker: the previous section's
      tracker is deleted and the cursor moves to `key`. */
  function Seat(s: ObjectState, key: int, state: TrackerState): ObjectState
    requires key in s.sections
  {
    var released := Released(s.sections, s.current);
    s.(sections := released[key := released[key].(tracker := Some(state))], current := Some(key))
  }

  /** `trajectory[frame timestamp] = TrajectoryEntry(box, ...)`. */
  function Record(s: ObjectState, frame: Frame, box: Box): ObjectState
  {
    s.(trajectory := s.trajectory[frame.timestamp := Entry(box, frame.timePosition, frame.frameNumber)])
  }

  /** `track_next`: records the box for one frame, entering a new section
      (and seeding its tracker) or stepping the live tracker. */
  function TrackNext(s: ObjectState, tracker: Tracker, frame: Frame): (ObjectState, Box)
    requires TrackNextDefined(s)
  {
    if EntersSection(s, frame) then
      var key := EnteredKey(s);
      var (state, box) := tracker.init(frame, s.sections[key].initialPosition);
      (Record(NextAfter(Seat(s, key, state), key), frame, box), box)
    else
      var c := s.current.value;
      var (state, box) := tracker.step(s.sections[c].tracker.value, frame);
      var s1 := Record(s.(sections := s.sections[c := s.sections[c].(tracker := Some(state))]), frame, box);
      if s1.endTimestampSet && LastProcessed(s1) == Some(s1.endTimestamp) then (SetAllProcessed(s1, true), box)
      else (s1, box)
  }

  /** `erase_trajectory_to_comply` dereferences `--upper_bound(last
      processed)`: some section must start at or before the frontier. */
  predicate ComplyDefined(s: ObjectState)
  {
    !s.allProcessed && s.trajectory.Keys != {} ==>
      exists k :: k in s.sections && k <= Greatest(s.trajectory.Keys)
  }

  /** `erase_trajectory_to_comply`: cuts the cache back to the start of the
      section the frontier lies in, unless everything is processed. */
  function EraseToComply(s: ObjectState): ObjectState
    requires ComplyDefined(s)
  {
    if s.allProcessed || s.trajectory.Keys == {} then s
    else
      var section := Floor(s.sections.Keys, Greatest(s.trajectory.Keys));
      s.(trajectory := EraseFromFound(s.trajectory, s.sections[section].initialTimestamp))
  }
}
