/** What the `serialize` templates of `TrajectorySection`, `TrajectoryEntry`
    and `TrackedObject` keep.  A section keeps its four initial fields and
    never its tracker; an object keeps its name, bounds, sections,
    `allProcessed` and cache, and never the cursor.  Loading goes through
    the default constructor, which leaves the cursor cleared. */
module Persistence {
  import opened Common
  import opened OrderedMaps
  import opened TrajectoryStore

  /** The archived fields of a `TrajectorySection`. */
  datatype SavedSection = SavedSection(
    initialPosition: Box,
    initialTimestamp: int,
    initialTimePosition: nat,
    initialFrameNumber: nat)

  /** The archived fields of a `TrackedObject` (the appearance, also
      archived, is not part of the store). */
  datatype SavedObject = SavedObject(
    name: string,
    initialTimestamp: int,
    endTimestampSet: bool,
    endTimestamp: int,
    endTimePosition: nat,
    endFrameNumber: nat,
    sections: map<int, SavedSection>,
    allProcessed: bool,
    trajectory: map<int, Entry>)

  function SaveSection(section: Section): SavedSection
  {
    SavedSection(section.initialPosition, section.initialTimestamp, section.initialTimePosition, section.initialFrameNumber)
  }

  /** A section read back: the default constructor leaves the tracker null. */
  function LoadSection(saved: SavedSection): Section
  {
    Section(saved.initialPosition, saved.initialTimestamp, saved.initialTimePosition, saved.initialFrameNumber, None)
  }

  function Save(s: ObjectState): (o: SavedObject)
    ensures o.sections.Keys == s.sections.Keys && o.trajectory == s.trajectory
  {
    SavedObject(s.name, s.initialTimestamp, s.endTimestampSet, s.endTimestamp, s.endTimePosition, s.endFrameNumber,
                map k | k in s.sections :: SaveSection(s.sections[k]), s.allProcessed, s.trajectory)
  }

  /** An object read back.  `nextSectionTimestamp` is left uninitialised by
      the default constructor; it is taken as 0 here and is never read
      while `nextSection` is false. */
  function Load(o: SavedObject): (s: ObjectState)
    ensures s.sections.Keys == o.sections.Keys && s.trajectory == o.trajectory
    ensures s.current.None? && !s.nextSection
    ensures forall k :: k in s.sections ==> s.sections[k].tracker.None?
  {
    ObjectState(o.name, o.initialTimestamp, o.endTimestampSet, o.endTimestamp, o.endTimePosition, o.endFrameNumber,
                map k | k in o.sections :: LoadSection(o.sections[k]), o.trajectory, None, false, 0, o.allProcessed)
  }

  /** Loading then saving gives back the archive. */
  lemma SaveLoad(o: SavedObject)
    ensures Save(Load(o)) == o
  {
    var back := Save(Load(o)).sections;
    assert forall k :: k in back ==> back[k] == o.sections[k];
    assert back == o.sections;
  }

  /** Saving then loading gives back the object with its cursor cleared and
      every tracker dropped: nothing else is lost. */
  lemma LoadSave(s: ObjectState)
    ensures var t := Load(Save(s));
            && t == s.(sections := t.sections, current := None, nextSection := false, nextSectionTimestamp := 0)
            && t.sections.Keys == s.sections.Keys
            && forall k :: k in s.sections ==> t.sections[k] == s.sections[k].(tracker := None)
  {
  }

  /** The archive does not depend on the cursor or on the trackers. */
  lemma SaveIgnoresCursor(s: ObjectState, u: ObjectState)
    requires u.sections.Keys == s.sections.Keys
    requires forall k :: k in s.sections ==> u.sections[k].(tracker := None) == s.sections[k].(tracker := None)
    requires u == s.(sections := u.sections, current := u.current, nextSection := u.nextSection,
                     nextSectionTimestamp := u.nextSectionTimestamp)
    ensures Save(u) == Save(s)
  {
    var a := Save(u).sections;
    var b := Save(s).sections;
    forall k | k in a
      ensures a[k] == b[k]
    {
      assert u.sections[k].(tracker := None) == s.sections[k].(tracker := None);
    }
    assert a == b;
  }

  /** A valid object is still valid after a save and a load. */
  lemma LoadSaveKeepsValid(s: ObjectState)
    requires Valid(s)
    ensures Valid(Load(Save(s)))
  {
    var t := Load(Save(s));
    assert forall k :: k in t.sections ==> t.sections[k].initialTimestamp == s.sections[k].initialTimestamp;
  }
}
